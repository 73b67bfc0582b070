/** Facts about machine words, kept apart from everything else. */
module BitVectors {

  /** The low byte of a number. */
  function ByteOf(x: nat): bv8 {
    if x == 0 then 0 else ByteOf(x - 1) + 1
  }

  lemma NextByte(b: bv8)
    requires b as nat < 255
    ensures (b + 1) as nat == b as nat + 1
  {
  }

  /** A number below 256 survives as a byte. */
  lemma {:induction false} ByteValue(x: nat)
    requires x < 256
    ensures ByteOf(x) as nat == x
  {
    if x > 0 {
      ByteValue(x - 1);
      NextByte(ByteOf(x - 1));
    }
  }

  lemma LowBit(a: bv32)
    ensures a & 1 == 0 || a & 1 == 1
  {
  }

  lemma LowBits(a: bv32, b: bv32)
    ensures (a ^ b) & 1 == (a & 1) ^ (b & 1)
  {
  }

  lemma ShiftXor(a: bv32, b: bv32)
    ensures (a ^ b) >> 1 == (a >> 1) ^ (b >> 1)
  {
  }

  lemma XorLaws(a: bv32, b: bv32, p: bv32)
    ensures (a ^ p) ^ (b ^ p) == a ^ b && (a ^ b) ^ p == (a ^ p) ^ b && (a ^ b) ^ p == a ^ (b ^ p)
  {
  }

  lemma Regroup(x: bv32, y: bv32, z: bv32)
    ensures x ^ (y ^ z) == (x ^ y) ^ z
  {
  }
}
