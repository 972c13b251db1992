/** Machine words, the option type, and big-endian byte strings. */
module Words {
  type u8 = x: int | 0 <= x < 0x100
  type u16 = x: int | 0 <= x < 0x1_0000
  type u32 = x: int | 0 <= x < 0x1_0000_0000

  const U16_MOD: int := 0x1_0000
  const U32_MAX: int := 0xFFFF_FFFF

  datatype Option<+T> = None | Some(value: T)

  /** `u16::wrapping_sub`: Dafny's `%` is never negative, so this wraps. */
  function Sub16(a: u16, b: u16): u16 { (a - b) % U16_MOD }

  /** `u16::wrapping_add(1)`. */
  function Inc16(a: u16): u16 { (a + 1) % U16_MOD }

  /** The wire number of an unbounded position. */
  function Wrap16(i: int): u16 { i % U16_MOD }

  /** `to_be_bytes` and `from_be_bytes`. */
  function Be16(x: u16): (b: seq<u8>)
    ensures |b| == 2
  {
    [x / 0x100, x % 0x100]
  }

  function FromBe16(hi: u8, lo: u8): u16 { hi * 0x100 + lo }

  function Be32(x: u32): seq<u8> { Be16(x / 0x1_0000) + Be16(x % 0x1_0000) }

  function FromBe32(b0: u8, b1: u8, b2: u8, b3: u8): u32 {
    FromBe16(b0, b1) * 0x1_0000 + FromBe16(b2, b3)
  }

  lemma Be16RoundTrip(x: u16)
    ensures FromBe16(Be16(x)[0], Be16(x)[1]) == x
  {
  }

  lemma Be32RoundTrip(x: u32)
    ensures |Be32(x)| == 4
    ensures FromBe32(Be32(x)[0], Be32(x)[1], Be32(x)[2], Be32(x)[3]) == x
  {
  }

  /** Most significant byte first. */
  lemma BigEndian(x: u32)
    ensures |Be32(x)| == 4
    ensures Be32(x)[0] == x / 0x100_0000 && Be32(x)[1] == x / 0x1_0000 % 0x100
    ensures Be32(x)[2] == x / 0x100 % 0x100 && Be32(x)[3] == x % 0x100
  {
  }

  lemma Be16OfFromBe(hi: u8, lo: u8)
    ensures Be16(FromBe16(hi, lo)) == [hi, lo]
  {
  }

  lemma Halves(hi: u16, lo: u16)
    ensures (hi * 0x1_0000 + lo) / 0x1_0000 == hi && (hi * 0x1_0000 + lo) % 0x1_0000 == lo
  {
  }

  lemma BytesOfFromBe(b0: u8, b1: u8, b2: u8, b3: u8)
    ensures Be16(FromBe16(b0, b1)) == [b0, b1]
    ensures Be32(FromBe32(b0, b1, b2, b3)) == [b0, b1, b2, b3]
  {
    Be16OfFromBe(b0, b1);
    Be16OfFromBe(b2, b3);
    Halves(FromBe16(b0, b1), FromBe16(b2, b3));
    hide Be16, FromBe16;
  }

  /** Distances on the wire are distances between positions, modulo 65536. */
  lemma SubOfWraps(i: int, j: int)
    ensures Sub16(Wrap16(i), Wrap16(j)) == (i - j) % U16_MOD
  {
    var qi, qj := i / U16_MOD, j / U16_MOD;
    assert i == qi * U16_MOD + Wrap16(i) && j == qj * U16_MOD + Wrap16(j);
    ModUnique(i - j, qi - qj, Wrap16(i) - Wrap16(j));
  }

  /** Adding multiples of 65536 does not change the wire distance. */
  lemma ModUnique(x: int, q: int, r: int)
    requires x == q * U16_MOD + r
    ensures x % U16_MOD == r % U16_MOD
  {
  }
}
