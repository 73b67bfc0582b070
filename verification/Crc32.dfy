/** CRC-32. */
module Crc32 {
  // The one of section 8 of RFC 1952, as the snapshot uses it: the register over the body,
  // complemented, follows the body as four little-endian bytes.

  import opened Types
  import opened Crc
  import BV = BitVectors

  const POLYNOMIAL: bv32 := 0xEDB88320

  function BitStep(c: bv32): bv32 {
    if c & 1 == 1 then (c >> 1) ^ POLYNOMIAL else c >> 1
  }

  function Xor(a: bv32, b: bv32): bv32 {
    a ^ b
  }

  function Lift(b: byte): bv32 {
    b as bv32
  }

  function Low(w: bv32): byte {
    (w & 0xFF) as bv8
  }

  function High(w: bv32): bv32 {
    w & 0xFFFFFF00
  }

  function Down(w: bv32): bv32 {
    w >> 8
  }

  function Word(b0: byte, b1: byte, b2: byte, b3: byte): bv32 {
    (b0 as bv32) | ((b1 as bv32) << 8) | ((b2 as bv32) << 16) | ((b3 as bv32) << 24)
  }

  function Not(c: bv32): bv32 {
    !c
  }

  const Bits: Algebra<bv32> := Algebra(BitStep, 8, Xor, Lift, Low, High, Down, Word, Not, 0xFFFFFFFF)

  // ---------------------------------------------------------------------------
  // The loops

  /** The bit loop masks the polynomial with the low bit instead of branching. */
  method MaskedStep(c: bv32) returns (r: bv32)
    ensures r == BitStep(c)
  {
    var mask := 0 - (c & 1);
    r := (c >> 1) ^ (POLYNOMIAL & mask);
  }

  method UpdateByte(c: bv32, b: byte) returns (r: bv32)
    ensures r == Bits.ByteStep(c, b)
  {
    r := Xor(c, Lift(b));
    ghost var start := r;
    for k := 0 to 8
      invariant r == Iterate(BitStep, k, start)
    {
      r := MaskedStep(r);
    }
  }

  method Update(crc: bv32, bytes: seq<byte>) returns (c: bv32)
    ensures c == Bits.Register(crc, bytes)
  {
    c := crc;
    for i := 0 to |bytes|
      invariant c == Bits.Register(crc, bytes[..i])
    {
      assert bytes[..i + 1][..i] == bytes[..i];
      c := UpdateByte(c, bytes[i]);
    }
    assert bytes[..|bytes|] == bytes;
  }

  // ---------------------------------------------------------------------------
  // The laws

  lemma BitLinear(a: bv32, b: bv32)
    ensures BitStep(a ^ b) == BitStep(a) ^ BitStep(b)
  {
    BV.LowBits(a, b);
    BV.ShiftXor(a, b);
    BV.LowBit(a);
    BV.LowBit(b);
    BV.XorLaws(a >> 1, b >> 1, POLYNOMIAL);
  }

  lemma BitInjective(a: bv32, b: bv32)
    requires BitStep(a) == BitStep(b)
    ensures a == b
  {
  }

  lemma BitsLinear()
    ensures Linear(Bits) && Injective(Bits)
  {
    forall x, y ensures BitStep(Xor(x, y)) == Xor(BitStep(x), BitStep(y)) {
      BitLinear(x, y);
    }
    forall x, y | BitStep(x) == BitStep(y) ensures x == y {
      BitInjective(x, y);
    }
  }

  lemma XorAssociative(x: bv32, y: bv32, z: bv32)
    ensures Xor(x, Xor(y, z)) == Xor(Xor(x, y), z)
  {
    calc {
      Xor(x, Xor(y, z));
      x ^ (y ^ z);
      { BV.Regroup(x, y, z); }
      (x ^ y) ^ z;
      Xor(Xor(x, y), z);
    }
  }

  lemma XorCancelRight(x: bv32, y: bv32, z: bv32)
    requires Xor(x, z) == Xor(y, z)
    ensures x == y
  {
  }

  lemma XorCancelLeft(x: bv32, y: bv32, z: bv32)
    requires Xor(z, x) == Xor(z, y)
    ensures x == y
  {
  }

  lemma ComplementSum(c: bv32)
    ensures Xor(c, Not(c)) == 0xFFFFFFFF
  {
  }

  lemma Complements(c: bv32, w: bv32)
    requires Xor(c, w) == 0xFFFFFFFF
    ensures w == Not(c)
  {
    ComplementSum(c);
    XorCancelLeft(w, Not(c), c);
  }

  lemma BitsCancel()
    ensures Cancels(Bits)
  {
    forall x, y, z | Xor(x, z) == Xor(y, z) ensures x == y { XorCancelRight(x, y, z); }
    forall x, y, z | Xor(z, x) == Xor(z, y) ensures x == y { XorCancelLeft(x, y, z); }
    forall c ensures Xor(c, Not(c)) == 0xFFFFFFFF { ComplementSum(c); }
    forall c, w | Xor(c, w) == 0xFFFFFFFF ensures w == Not(c) { Complements(c, w); }
  }

  lemma Eight<R>(step: R -> R, c: R)
    ensures Iterate(step, 8, c) == step(step(step(step(step(step(step(step(c))))))))
  {
    assert Iterate(step, 4, c) == step(step(step(step(c))));
  }

  /** Eight steps bring a register whose low byte is clear down by one byte. */
  lemma ComesDown(w: bv32)
    requires w & 0xFF == 0
    ensures Iterate(BitStep, 8, w) == w >> 8
  {
    Eight(BitStep, w);
  }

  lemma SplitLow(w: bv32)
    ensures w == Xor(Lift(Low(w)), High(w)) && High(w) & 0xFF == 0 && High(w) >> 8 == Down(w)
  {
  }

  lemma AllDown(c: bv32, w: bv32)
    ensures Xor(c, Down(Down(Down(Down(w))))) == c
  {
  }

  lemma WordBytes(b0: byte, b1: byte, b2: byte, b3: byte)
    ensures var w := Word(b0, b1, b2, b3);
      Low(w) == b0 && Low(Down(w)) == b1 && Low(Down(Down(w))) == b2 && Low(Down(Down(Down(w)))) == b3
  {
  }

  lemma BytesWord(w: bv32)
    ensures Word(Low(w), Low(Down(w)), Low(Down(Down(w))), Low(Down(Down(Down(w))))) == w
  {
  }

  lemma BitsBytewise()
    ensures Bytewise(Bits)
  {
    forall x, y, z ensures Xor(x, Xor(y, z)) == Xor(Xor(x, y), z) { XorAssociative(x, y, z); }
    forall w ensures w == Xor(Lift(Low(w)), High(w)) && Iterate(BitStep, 8, High(w)) == Down(w) {
      SplitLow(w);
      ComesDown(High(w));
    }
  }

  lemma BitsFourWide()
    ensures FourWide(Bits)
  {
    forall t: seq<byte> | |t| == 4 ensures Bits.Bytes(Bits.Word(t)) == t {
      WordBytes(t[0], t[1], t[2], t[3]);
    }
    forall w ensures Bits.Word(Bits.Bytes(w)) == w {
      BytesWord(w);
    }
    forall c, w ensures Xor(c, Down(Down(Down(Down(w))))) == c {
      AllDown(c, w);
    }
  }

  lemma BitsLawful()
    ensures Lawful(Bits)
  {
    BitsLinear();
    BitsCancel();
    BitsBytewise();
    BitsFourWide();
  }

  // ---------------------------------------------------------------------------
  // Detection

  /** Any damage within four consecutive bytes of an accepted input, trailer included, is detected. */
  lemma BurstDetected(p: seq<byte>, u: seq<byte>, v: seq<byte>, s: seq<byte>)
    requires |u| == |v| <= 4 && u != v && Accepts(Bits, p + u + s)
    ensures !Accepts(Bits, p + v + s)
  {
    BitsLawful();
    DamageDetected(Bits, p, u, v, s);
  }

  /** In particular a single changed byte, wherever it is. */
  lemma OneByteDetected(bytes: seq<byte>, i: nat, b: byte)
    requires Accepts(Bits, bytes) && i < |bytes| && b != bytes[i]
    ensures !Accepts(Bits, bytes[i := b])
  {
    var p, s := bytes[..i], bytes[i + 1..];
    assert bytes == p + [bytes[i]] + s && bytes[i := b] == p + [b] + s;
    assert [b][0] != [bytes[i]][0];
    BurstDetected(p, [bytes[i]], [b], s);
  }

  // ---------------------------------------------------------------------------
  // A known value

  function EightSteps(c: bv32, b: byte): bv32 {
    BitStep(BitStep(BitStep(BitStep(BitStep(BitStep(BitStep(BitStep(c ^ (b as bv32)))))))))
  }

  lemma ByteIs(c: bv32, b: byte, r: bv32)
    requires EightSteps(c, b) == r
    ensures Bits.ByteStep(c, b) == r
  {
    Eight(BitStep, c ^ (b as bv32));
  }

  const DIGITS: seq<byte> := [0x31, 0x32, 0x33, 0x34, 0x35, 0x36, 0x37, 0x38, 0x39]

  const REGISTERS: seq<bv32> := [
    0xFFFFFFFF, 0x7C231048, 0xB0ACBB32, 0x77B79C2D, 0x641C1F5C,
    0x340AC5E3, 0xF68D2C9E, 0xAFFC9660, 0x651F2550, 0x340BC6D9]

  lemma DigitStep(i: nat)
    requires i < 9
    ensures Bits.ByteStep(REGISTERS[i], DIGITS[i]) == REGISTERS[i + 1]
  {
    match i
    case 0 => ByteIs(0xFFFFFFFF, 0x31, 0x7C231048);
    case 1 => ByteIs(0x7C231048, 0x32, 0xB0ACBB32);
    case 2 => ByteIs(0xB0ACBB32, 0x33, 0x77B79C2D);
    case 3 => ByteIs(0x77B79C2D, 0x34, 0x641C1F5C);
    case 4 => ByteIs(0x641C1F5C, 0x35, 0x340AC5E3);
    case 5 => ByteIs(0x340AC5E3, 0x36, 0xF68D2C9E);
    case 6 => ByteIs(0xF68D2C9E, 0x37, 0xAFFC9660);
    case 7 => ByteIs(0xAFFC9660, 0x38, 0x651F2550);
    case _ => ByteIs(0x651F2550, 0x39, 0x340BC6D9);
  }

  /** The check value of this CRC: what it makes of the nine digits "123456789". */
  lemma CheckValue()
    ensures Not(Bits.Register(0xFFFFFFFF, DIGITS)) == 0xCBF43926
  {
    forall i | 0 <= i < 9 ensures Bits.ByteStep(REGISTERS[i], DIGITS[i]) == REGISTERS[i + 1] {
      DigitStep(i);
    }
    RegisterIs(Bits, DIGITS, REGISTERS);
  }
}
