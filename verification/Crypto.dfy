/**
 * Encryption contexts (crypto.rs) over an ideal AEAD, and per-peer keys (key_exchange.rs)
 * over an ideal Diffie-Hellman and key derivation.
 *
 * Ideal means symbolic: a ciphertext opens under exactly the key, nonce bytes and header
 * bytes it was sealed with; a shared secret is the unordered pair of the two secrets; a
 * derived key is a function of shared secret, salt and info string, never the passphrase key.
 */
module Crypto {
  import opened Words
  import opened Wire

  type Secret = nat

  datatype Key = Psk(passphrase: nat) | Derived(shared: set<Secret>, salt: SessionId, info: seq<u8>)

  datatype Context = Context(key: Key, session: SessionId)

  datatype Sealed<+P> = Sealed(key: Key, nonce: seq<u8>, aad: seq<u8>, plain: P)

  function Encrypt<P>(ctx: Context, h: Header, plain: P): Sealed<P> {
    Sealed(ctx.key, NonceBytes(NonceFor(ctx.session, h)), HeaderBytes(h), plain)
  }

  function Decrypt<P>(ctx: Context, h: Header, c: Sealed<P>): Option<P> {
    if c.key == ctx.key && c.nonce == NonceBytes(NonceFor(ctx.session, h)) && c.aad == HeaderBytes(h)
    then Some(c.plain)
    else None
  }

  /** A packet opens exactly in the context and under the header it was sealed with. */
  lemma DecryptExactly<P>(sender: Context, h: Header, plain: P, receiver: Context, g: Header)
    ensures Decrypt(receiver, g, Encrypt(sender, h, plain))
            == if receiver == sender && g == h then Some(plain) else None
  {
    NonceInjective(NonceFor(sender.session, h), NonceFor(receiver.session, g));
    HeaderInjective(h, g);
    hide NonceBytes, HeaderBytes;
  }

  // ---------------------------------------------------------------------
  // Send counters.
  // ---------------------------------------------------------------------

  /** `next_counter`: the new counter and the reserved value; the last value is never issued. */
  function Reserve(counter: u32): (u32, Option<u32>) {
    if counter == U32_MAX then (counter, None) else (counter + 1, Some(counter))
  }

  function CounterAfter(n: nat): u32 {
    if n == 0 then 0 else Reserve(CounterAfter(n - 1)).0
  }

  /** What reservation number k (from 0) of one context returns. */
  function Reservation(k: nat): Option<u32> { Reserve(CounterAfter(k)).1 }

  lemma {:induction false} CounterCounts(n: nat)
    ensures CounterAfter(n) == if n < 0xFFFF_FFFF then n else 0xFFFF_FFFF
  {
    if n > 0 { CounterCounts(n - 1); }
  }

  /** Reservation k returns k, until 2^32 - 1 values are issued; after that it always fails. */
  lemma ReservationExactly(k: nat)
    ensures Reservation(k) == if k < 0xFFFF_FFFF then Some(k) else None
  {
    CounterCounts(k);
  }

  /** Packets stamped by one context have pairwise different nonces, whatever else they carry. */
  lemma StampedNoncesDiffer(ctx: Context, j: nat, k: nat, g: Header, h: Header)
    requires j != k
    requires Reservation(j) == Some(g.counter) && Reservation(k) == Some(h.counter)
    ensures NonceBytes(NonceFor(ctx.session, g)) != NonceBytes(NonceFor(ctx.session, h))
  {
    ReservationExactly(j);
    ReservationExactly(k);
    NonceInjective(NonceFor(ctx.session, g), NonceFor(ctx.session, h));
  }

  class CryptoContext {
    const key: Key
    const session: SessionId
    var sendCounter: u32
    ghost var reserved: nat

    ghost predicate Valid()
      reads this
    {
      sendCounter == CounterAfter(reserved)
    }

    function Ctx(): Context { Context(key, session) }

    constructor (key: Key, session: SessionId)
      ensures Valid() && reserved == 0
      ensures Ctx() == Context(key, session) && sendCounter == 0
    {
      this.key, this.session, sendCounter, reserved := key, session, 0, 0;
    }

    method NextCounter() returns (r: Option<u32>)
      requires Valid()
      modifies this
      ensures Valid() && reserved == old(reserved) + 1
      ensures (sendCounter, r) == Reserve(old(sendCounter))
      ensures r == if old(reserved) < 0xFFFF_FFFF then Some(old(reserved)) else None
    {
      ReservationExactly(reserved);
      reserved := reserved + 1;
      if sendCounter == U32_MAX {
        return None;
      }
      r := Some(sendCounter);
      sendCounter := sendCounter + 1;
    }
  }

  // ---------------------------------------------------------------------
  // Per-peer keys.
  // ---------------------------------------------------------------------

  /** A public key, or one of the low-order points whose shared secret is all zeros. */
  datatype PublicKey = Public(of: Secret) | LowOrder

  function DiffieHellman(mine: Secret, theirs: PublicKey): set<Secret> {
    if theirs.LowOrder? then {} else {mine, theirs.of}
  }

  /** The ASCII bytes of "voicechat-audio". */
  const INFO_PREFIX: seq<u8> :=
    [0x76, 0x6F, 0x69, 0x63, 0x65, 0x63, 0x68, 0x61, 0x74, 0x2D, 0x61, 0x75, 0x64, 0x69, 0x6F]

  function KeyInfo(localId: u8, peerId: u8): seq<u8> {
    INFO_PREFIX + if localId < peerId then [localId, peerId] else [peerId, localId]
  }

  function DerivePeerKey(mine: Secret, theirs: PublicKey, session: SessionId,
                         localId: u8, peerId: u8): Option<Key>
  {
    var shared := DiffieHellman(mine, theirs);
    if shared == {} then None else Some(Derived(shared, session, KeyInfo(localId, peerId)))
  }

  /** The ASCII codes of a text. */
  ghost predicate Spells(bytes: seq<u8>, text: string) {
    |bytes| == |text| && forall k | 0 <= k < |text| :: bytes[k] == text[k] as int
  }

  /**
   * What a derived key is made of: the two secrets, the session as salt, and as info the
   * protocol's name and the two ids, the smaller first. A low-order point gives no key.
   */
  lemma DerivedIs(mine: Secret, theirs: PublicKey, session: SessionId, localId: u8, peerId: u8)
    ensures var key := DerivePeerKey(mine, theirs, session, localId, peerId);
            && (key.None? <==> theirs.LowOrder?)
            && (key.Some? ==>
                  && key.value.Derived? && key.value.shared == {mine, theirs.of} && key.value.salt == session
                  && var info := key.value.info;
                     && |info| == 17 && Spells(info[..15], "voicechat-audio")
                     && info[15] <= info[16] && {info[15], info[16]} == {localId, peerId})
  {
    if theirs.Public? {
      assert mine in {mine, theirs.of};
      assert KeyInfo(localId, peerId)[..15] == INFO_PREFIX;
    }
  }

  /** Sorted pairs with the same members are the same pair. */
  lemma SortedPairs(i: u8, j: u8, m: u8, n: u8)
    requires i <= j && m <= n
    ensures {i, j} == {m, n} <==> i == m && j == n
  {
    if {i, j} == {m, n} {
      assert i in {m, n} && j in {m, n} && m in {i, j} && n in {i, j};
    }
  }

  /** Infos are equal exactly if they name the same two ids. */
  lemma InfoExactly(i: u8, j: u8, m: u8, n: u8)
    ensures KeyInfo(i, j) == KeyInfo(m, n) <==> {i, j} == {m, n}
  {
    var x, y := KeyInfo(i, j)[15..], KeyInfo(m, n)[15..];
    assert x == if i < j then [i, j] else [j, i];
    assert y == if m < n then [m, n] else [n, m];
    assert {x[0], x[1]} == {i, j} && {y[0], y[1]} == {m, n};
    SortedPairs(x[0], x[1], y[0], y[1]);
    if x == y { assert KeyInfo(i, j) == INFO_PREFIX + x && KeyInfo(m, n) == INFO_PREFIX + y; }
  }

  /** Two derivations give the same key exactly for the same two secrets, session and two ids. */
  lemma DeriveExactly(a: Secret, b: Secret, s: SessionId, i: u8, j: u8,
                      a': Secret, b': Secret, s': SessionId, i': u8, j': u8)
    ensures DerivePeerKey(a, Public(b), s, i, j) == DerivePeerKey(a', Public(b'), s', i', j')
            <==> {a, b} == {a', b'} && s == s' && {i, j} == {i', j'}
  {
    InfoExactly(i, j, i', j');
    assert a in {a, b} && a' in {a', b'};
    hide KeyInfo;
  }

  /** Both ends derive the same key, whoever started, and it is never the passphrase key. */
  lemma DeriveAgrees(a: Secret, b: Secret, session: SessionId, i: u8, j: u8)
    ensures DerivePeerKey(a, Public(b), session, i, j) == DerivePeerKey(b, Public(a), session, j, i)
    ensures DerivePeerKey(a, Public(b), session, i, j).Some?
    ensures DerivePeerKey(a, Public(b), session, i, j).value.Derived?
  {
    assert {a, b} == {b, a};
    assert a in {a, b};
  }

  /**
   * Two ends that know the same secrets, the first calling itself i, the second filing it
   * under k, derive the same key exactly if i is k.
   */
  lemma DeriveAgreesExactly(a: Secret, b: Secret, session: SessionId, i: u8, j: u8, k: u8)
    ensures DerivePeerKey(a, Public(b), session, i, j) == DerivePeerKey(b, Public(a), session, j, k) <==> i == k
  {
    DeriveExactly(a, b, session, i, j, b, a, session, j, k);
    assert {a, b} == {b, a};
    if {i, j} == {j, k} {
      assert i in {j, k} && k in {i, j};
    }
    hide DerivePeerKey;
  }
}
