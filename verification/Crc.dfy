/** Cyclic redundancy checks. */
module Crc {
  // Over any register algebra: what makes the check of `Crc32` detect every damage within four
  // consecutive bytes follows from a few laws of the register.

  import opened Types

  function Iterate<R>(step: R -> R, n: nat, c: R): R {
    if n == 0 then c else step(Iterate(step, n - 1, c))
  }

  /**
   `step` is one bit step and `bits` the number of them per byte, `lift` a byte as a register,
     `low` and `high` the low byte and
   the rest of a register, `down` the rest moved down by one byte, `word` a register made
   of four bytes, `not` the complement and `ones` the register with every bit set.
   */
  datatype Algebra<!R> = Algebra(
    step: R -> R, bits: nat, xor: (R, R) -> R, lift: byte -> R, low: R -> byte, high: R -> R, down: R -> R,
    word: (byte, byte, byte, byte) -> R, not: R -> R, ones: R)
  {
    function BitsOf(k: nat): nat {
      if k == 0 then 0 else bits + BitsOf(k - 1)
    }

    function ByteStep(c: R, b: byte): R {
      Iterate(step, bits, xor(c, lift(b)))
    }

    /** The register after some bytes. */
    function Register(c: R, bs: seq<byte>): R {
      if bs == [] then c else ByteStep(Register(c, bs[..|bs| - 1]), bs[|bs| - 1])
    }

    function Word(t: seq<byte>): R
      requires |t| == 4
    {
      word(t[0], t[1], t[2], t[3])
    }

    function DownBy(w: R, k: nat): R {
      if k == 0 then w else down(DownBy(w, k - 1))
    }

    /** The `k` lowest bytes of a register, lowest first. */
    function Spell(w: R, k: nat): seq<byte> {
      if k == 0 then [] else Spell(w, k - 1) + [low(DownBy(w, k - 1))]
    }

    /** The four bytes of a register, lowest first. */
    function Bytes(w: R): seq<byte> {
      [low(w), low(down(w)), low(down(down(w))), low(down(down(down(w))))]
    }
  }

  ghost predicate Linear<R(!new)>(a: Algebra<R>) {
    forall x, y :: a.step(a.xor(x, y)) == a.xor(a.step(x), a.step(y))
  }

  ghost predicate Injective<R(!new)>(a: Algebra<R>) {
    forall x, y :: a.step(x) == a.step(y) ==> x == y
  }

  ghost predicate Cancels<R(!new)>(a: Algebra<R>) {
    && (forall x, y, z :: a.xor(x, z) == a.xor(y, z) ==> x == y)
    && (forall x, y, z :: a.xor(z, x) == a.xor(z, y) ==> x == y)
    && (forall c, w :: w == a.not(c) <==> a.xor(c, w) == a.ones)
  }

  /** A register is its low byte and the rest, and the steps of one byte bring the rest down by one byte. */
  ghost predicate Bytewise<R(!new)>(a: Algebra<R>) {
    && (forall x, y, z :: a.xor(x, a.xor(y, z)) == a.xor(a.xor(x, y), z))
    && (forall w :: w == a.xor(a.lift(a.low(w)), a.high(w)) && Iterate(a.step, a.bits, a.high(w)) == a.down(w))
  }

  /** Four bytes and a register are the same thing. */
  ghost predicate FourWide<R(!new)>(a: Algebra<R>) {
    && (forall t: seq<byte> | |t| == 4 :: a.Bytes(a.Word(t)) == t)
    && (forall w :: a.Word(a.Bytes(w)) == w)
    && (forall c, w :: a.xor(c, a.down(a.down(a.down(a.down(w))))) == c)
  }

  ghost predicate Lawful<R(!new)>(a: Algebra<R>) {
    Linear(a) && Injective(a) && Cancels(a) && Bytewise(a) && FourWide(a)
  }

  // ---------------------------------------------------------------------------
  // Steps and bytes

  lemma {:induction false} IterateLinear<R(!new)>(a: Algebra<R>, n: nat, x: R, y: R)
    requires Linear(a)
    ensures Iterate(a.step, n, a.xor(x, y)) == a.xor(Iterate(a.step, n, x), Iterate(a.step, n, y))
  {
    if n > 0 {
      IterateLinear(a, n - 1, x, y);
    }
  }

  lemma {:induction false} IterateInjective<R(!new)>(a: Algebra<R>, n: nat, x: R, y: R)
    requires Injective(a) && Iterate(a.step, n, x) == Iterate(a.step, n, y)
    ensures x == y
  {
    if n > 0 {
      IterateInjective(a, n - 1, x, y);
    }
  }

  lemma {:induction false} IterateAdd<R>(step: R -> R, m: nat, n: nat, c: R)
    ensures Iterate(step, m + n, c) == Iterate(step, m, Iterate(step, n, c))
  {
    if m > 0 {
      IterateAdd(step, m - 1, n, c);
    }
  }

  /** Registers that differ stay different, whatever follows. */
  lemma {:induction false} RegisterInjective<R(!new)>(a: Algebra<R>, c: R, d: R, bs: seq<byte>)
    requires Injective(a) && Cancels(a) && a.Register(c, bs) == a.Register(d, bs)
    ensures c == d
  {
    if bs != [] {
      var front, b := bs[..|bs| - 1], a.lift(bs[|bs| - 1]);
      IterateInjective(a, a.bits, a.xor(a.Register(c, front), b), a.xor(a.Register(d, front), b));
      RegisterInjective(a, c, d, front);
    }
  }

  lemma {:induction false} RegisterAppend<R>(a: Algebra<R>, c: R, x: seq<byte>, y: seq<byte>)
    ensures a.Register(c, x + y) == a.Register(a.Register(c, x), y)
  {
    if y == [] {
      assert x + y == x;
    } else {
      RegisterAppend(a, c, x, y[..|y| - 1]);
      assert (x + y)[..|x + y| - 1] == x + y[..|y| - 1];
    }
  }

  // ---------------------------------------------------------------------------
  // Four bytes enter the register as one word

  /** The steps of one byte take in the low byte of a word and leave the rest of it waiting one byte lower. */
  lemma Absorb<R(!new)>(a: Algebra<R>, c: R, w: R)
    requires Linear(a) && Bytewise(a)
    ensures Iterate(a.step, a.bits, a.xor(c, w)) == a.xor(a.ByteStep(c, a.low(w)), a.down(w))
  {
    var l, h := a.lift(a.low(w)), a.high(w);
    assert w == a.xor(l, h);
    IterateLinear(a, a.bits, a.xor(c, l), h);
  }

  lemma SpellNext<R>(a: Algebra<R>, c: R, x: R, w: R, k: nat)
    requires k > 0
    ensures a.Register(c, a.Spell(w, k)) == a.ByteStep(a.Register(c, a.Spell(w, k - 1)), a.low(a.DownBy(w, k - 1)))
    ensures Iterate(a.step, a.BitsOf(k), x) == Iterate(a.step, a.bits, Iterate(a.step, a.BitsOf(k - 1), x))
  {
    assert a.Spell(w, k)[..|a.Spell(w, k)| - 1] == a.Spell(w, k - 1);
    IterateAdd(a.step, a.bits, a.BitsOf(k - 1), x);
  }

  lemma {:induction false} AbsorbAll<R(!new)>(a: Algebra<R>, c: R, w: R, k: nat)
    requires Linear(a) && Bytewise(a)
    ensures Iterate(a.step, a.BitsOf(k), a.xor(c, w)) == a.xor(a.Register(c, a.Spell(w, k)), a.DownBy(w, k))
  {
    if k > 0 {
      AbsorbAll(a, c, w, k - 1);
      Absorb(a, a.Register(c, a.Spell(w, k - 1)), a.DownBy(w, k - 1));
      SpellNext(a, c, a.xor(c, w), w, k);
    }
  }

  lemma SpellFour<R>(a: Algebra<R>, w: R)
    ensures a.Spell(w, 4) == a.Bytes(w) && a.DownBy(w, 4) == a.down(a.down(a.down(a.down(w))))
  {
    assert a.DownBy(w, 1) == a.down(w);
    assert a.DownBy(w, 2) == a.down(a.down(w));
    assert a.DownBy(w, 3) == a.down(a.down(a.down(w)));
    assert a.Spell(w, 1) == [a.low(w)];
    assert a.Spell(w, 2) == [a.low(w), a.low(a.down(w))];
    assert a.Spell(w, 3) == [a.low(w), a.low(a.down(w)), a.low(a.down(a.down(w)))];
  }

  /** Feeding four bytes is feeding the word they make, for the steps of four bytes. */
  lemma FourBytes<R(!new)>(a: Algebra<R>, c: R, t: seq<byte>)
    requires Lawful(a) && |t| == 4
    ensures a.Register(c, t) == Iterate(a.step, a.BitsOf(4), a.xor(c, a.Word(t)))
  {
    var w := a.Word(t);
    assert a.Bytes(w) == t;
    AbsorbAll(a, c, w, 4);
    SpellFour(a, w);
  }

  // ---------------------------------------------------------------------------
  // What the check accepts

  /** The last four bytes are the complemented register over the bytes before them. */
  predicate Accepts<R(==)>(a: Algebra<R>, bytes: seq<byte>) {
    |bytes| >= 5 && a.Word(bytes[|bytes| - 4..]) == a.not(a.Register(a.ones, bytes[..|bytes| - 4]))
  }

  function Sealed<R>(a: Algebra<R>, body: seq<byte>): seq<byte> {
    body + a.Bytes(a.not(a.Register(a.ones, body)))
  }

  lemma SealedAccepted<R(!new)>(a: Algebra<R>, body: seq<byte>)
    requires Lawful(a) && body != []
    ensures Accepts(a, Sealed(a, body))
  {
    var bytes := Sealed(a, body);
    assert bytes[|bytes| - 4..] == a.Bytes(a.not(a.Register(a.ones, body))) && bytes[..|bytes| - 4] == body;
  }

  /** Run over everything, trailer included, the register ends in one fixed value exactly for the accepted inputs. */
  lemma AcceptedIffResidue<R(!new)>(a: Algebra<R>, bytes: seq<byte>)
    requires Lawful(a) && |bytes| >= 5
    ensures Accepts(a, bytes) <==> a.Register(a.ones, bytes) == Iterate(a.step, a.BitsOf(4), a.ones)
  {
    var body, t := bytes[..|bytes| - 4], bytes[|bytes| - 4..];
    var c := a.Register(a.ones, body);
    assert bytes == body + t;
    RegisterAppend(a, a.ones, body, t);
    FourBytes(a, c, t);
    if a.Register(a.ones, bytes) == Iterate(a.step, a.BitsOf(4), a.ones) {
      IterateInjective(a, a.BitsOf(4), a.xor(c, a.Word(t)), a.ones);
    }
  }

  /** From one register, two different stretches of at most four bytes lead to different registers. */
  lemma StretchInjective<R(!new)>(a: Algebra<R>, c: R, u: seq<byte>, v: seq<byte>)
    requires Lawful(a) && |u| == |v| <= 4 && a.Register(c, u) == a.Register(c, v)
    ensures u == v
  {
    var z := seq(4 - |u|, _ => 0 as bv8);
    RegisterAppend(a, c, u, z);
    RegisterAppend(a, c, v, z);
    FourBytes(a, c, u + z);
    FourBytes(a, c, v + z);
    IterateInjective(a, a.BitsOf(4), a.xor(c, a.Word(u + z)), a.xor(c, a.Word(v + z)));
    WordInjective(a, u + z, v + z);
    assert u == (u + z)[..|u|] && v == (v + z)[..|v|];
  }

  lemma WordInjective<R(!new)>(a: Algebra<R>, s: seq<byte>, t: seq<byte>)
    requires FourWide(a) && |s| == 4 && |t| == 4 && a.Word(s) == a.Word(t)
    ensures s == t
  {
    assert a.Bytes(a.Word(s)) == s && a.Bytes(a.Word(t)) == t;
  }

  lemma RegisterThrough<R>(a: Algebra<R>, p: seq<byte>, u: seq<byte>, s: seq<byte>)
    ensures a.Register(a.ones, p + u + s) == a.Register(a.Register(a.Register(a.ones, p), u), s)
  {
    RegisterAppend(a, a.ones, p + u, s);
    RegisterAppend(a, a.ones, p, u);
  }

  /** Any damage within four consecutive bytes, in the body, in the trailer or across both, is detected. */
  lemma DamageDetected<R(!new)>(a: Algebra<R>, p: seq<byte>, u: seq<byte>, v: seq<byte>, s: seq<byte>)
    requires Lawful(a) && |u| == |v| <= 4 && u != v && Accepts(a, p + u + s)
    ensures !Accepts(a, p + v + s)
  {
    AcceptedIffResidue(a, p + u + s);
    AcceptedIffResidue(a, p + v + s);
    RegisterThrough(a, p, u, s);
    RegisterThrough(a, p, v, s);
    var c := a.Register(a.ones, p);
    if a.Register(a.Register(c, u), s) == a.Register(a.Register(c, v), s) {
      RegisterInjective(a, a.Register(c, u), a.Register(c, v), s);
      StretchInjective(a, c, u, v);
    }
  }

  /** The register passes through any values that follow from each other byte by byte. */
  lemma {:induction false} RegisterIs<R>(a: Algebra<R>, bs: seq<byte>, cs: seq<R>)
    requires |cs| == |bs| + 1 && cs[0] == a.ones
    requires forall i | 0 <= i < |bs| :: a.ByteStep(cs[i], bs[i]) == cs[i + 1]
    ensures a.Register(a.ones, bs) == cs[|bs|]
  {
    if bs != [] {
      RegisterIs(a, bs[..|bs| - 1], cs[..|bs|]);
    }
  }
}
