/** Bytes, and the big-endian 16-bit words of DNS messages. */
module Bytes {
  type byte = x: int | 0 <= x < 256

  function Hi(n: int): byte { n / 256 % 256 }
  function Lo(n: int): byte { n % 256 }
  function Word(hi: byte, lo: byte): (w: nat)
    ensures w < 0x1_0000
  {
    hi * 256 + lo
  }

  lemma WordOfHalves(n: nat)
    requires n < 0x1_0000
    ensures Word(Hi(n), Lo(n)) == n
  {
  }

  lemma HalvesOfWord(hi: byte, lo: byte)
    ensures Hi(Word(hi, lo)) == hi && Lo(Word(hi, lo)) == lo
  {
  }
}
