/** The idempotency key of a transition. */
module AcceptanceKeys {
  // The hash the coordinator files accepted generations under.

  import opened Types

  const OFFSET: nat := 1469598103934665603
  const PRIME: nat := 1099511628211

  // ---------------------------------------------------------------------------
  // Words

  function Pow2(n: nat): nat {
    if n == 0 then 1 else 2 * Pow2(n - 1)
  }

  /** Exclusive or of the lowest `n` bits. */
  function Xor(n: nat, a: nat, b: nat): nat {
    if n == 0 then 0 else (a + b) % 2 + 2 * Xor(n - 1, a / 2, b / 2)
  }

  lemma {:induction false} XorBound(n: nat, a: nat, b: nat)
    ensures Xor(n, a, b) < Pow2(n)
  {
    if n > 0 {
      XorBound(n - 1, a / 2, b / 2);
    }
  }

  lemma {:induction false} XorSymmetric(n: nat, a: nat, b: nat)
    ensures Xor(n, a, b) == Xor(n, b, a)
  {
    if n > 0 {
      XorSymmetric(n - 1, a / 2, b / 2);
    }
  }

  lemma SumBit(b: nat, x: nat, a: nat)
    requires x % 2 == (b + a) % 2
    ensures (b + x) % 2 == a % 2
  {
  }

  lemma XorParts(n: nat, a: nat, b: nat)
    requires n > 0
    ensures Xor(n, a, b) % 2 == (a + b) % 2 && Xor(n, a, b) / 2 == Xor(n - 1, a / 2, b / 2)
  {
  }

  lemma {:induction false} XorUndone(n: nat, a: nat, b: nat)
    requires a < Pow2(n)
    ensures Xor(n, b, Xor(n, b, a)) == a
  {
    if n > 0 {
      var x := Xor(n, b, a);
      XorParts(n, b, a);
      XorUndone(n - 1, a / 2, b / 2);
      XorParts(n, b, x);
      SumBit(b, x, a);
    }
  }

  datatype Word = Word(bits: nat)

  const WORD: Word := Word(64)

  lemma Width()
    ensures Pow2(WORD.bits) == TWO64
  {
    assert Pow2(8) == 256;
    assert Pow2(16) == 256 * Pow2(8);
    assert Pow2(24) == 256 * Pow2(16);
    assert Pow2(32) == 256 * Pow2(24);
    assert Pow2(40) == 256 * Pow2(32);
    assert Pow2(48) == 256 * Pow2(40);
    assert Pow2(56) == 256 * Pow2(48);
    assert Pow2(64) == 256 * Pow2(56);
  }

  const INVERSE: nat := 14886173955864302971
  const TURNS: nat := 887285111055

  /** The prime is odd, so multiplying by it can be undone. */
  lemma ProductCancels(x: nat, y: nat)
    requires x < TWO64 && y < TWO64 && x * PRIME % TWO64 == y * PRIME % TWO64
    ensures x == y
  {
    var a, b := x * PRIME / TWO64, y * PRIME / TWO64;
    assert x * PRIME == TWO64 * a + x * PRIME % TWO64;
    assert y * PRIME == TWO64 * b + y * PRIME % TWO64;
    Unwind(x - y, a - b);
  }

  lemma Unwind(d: int, t: int)
    requires 0 - TWO64 < d < TWO64 && d * PRIME == TWO64 * t
    ensures d == 0
  {
    assert d * (PRIME * INVERSE) == TWO64 * (t * INVERSE);
    assert PRIME * INVERSE == 1 + TWO64 * TURNS;
    assert d == TWO64 * (t * INVERSE - d * TURNS);
  }

  // ---------------------------------------------------------------------------
  // The hash

  /** Folds one 64-bit value into the register. */
  function Mix(h: nat, v: nat): nat {
    Scrambled(Blend(h, v % TWO64))
  }

  function Blend(h: nat, v: nat): (x: nat)
    ensures x < TWO64
  {
    Width();
    XorBound(WORD.bits, h, v);
    Xor(WORD.bits, h, v)
  }

  function Scrambled(x: nat): nat {
    x * PRIME % TWO64
  }

  lemma BlendUndone(h: nat, v: nat)
    requires v < TWO64
    ensures Blend(h, Blend(h, v)) == v
  {
    Width();
    XorUndone(WORD.bits, v, h);
  }

  lemma BlendSymmetric(h: nat, v: nat)
    ensures Blend(h, v) == Blend(v, h)
  {
    XorSymmetric(WORD.bits, h, v);
  }

  lemma Short(v: nat)
    requires v < TWO64
    ensures v % TWO64 == v
  {
  }

  function MixAll(h: nat, vs: seq<nat>): nat {
    if vs == [] then h else Mix(MixAll(h, vs[..|vs| - 1]), vs[|vs| - 1])
  }

  /** Everything that identifies a transition but the dispatch that carries it and its position. */
  function Identity(a: Authority): seq<nat> {
    [a.epoch, a.worker, a.workerBoot, a.sequence, a.state, a.attempt, a.generation]
  }

  function AcceptanceKey(a: Authority, pos: nat): nat {
    Mix(Mix(MixAll(OFFSET, Identity(a)), a.dispatch), pos)
  }

  /** The register tells different values apart. */
  lemma ValueTold(h: nat, v: nat, w: nat)
    requires v < TWO64 && w < TWO64 && Mix(h, v) == Mix(h, w)
    ensures v == w
  {
    Short(v);
    Short(w);
    ProductCancels(Blend(h, v), Blend(h, w));
    BlendUndone(h, v);
    BlendUndone(h, w);
  }

  /** Folding in one value keeps different registers different. */
  lemma RegisterTold(h: nat, k: nat, v: nat)
    requires h < TWO64 && k < TWO64 && Mix(h, v) == Mix(k, v)
    ensures h == k
  {
    var u := v % TWO64;
    ProductCancels(Blend(h, u), Blend(k, u));
    BlendSymmetric(h, u);
    BlendSymmetric(k, u);
    BlendUndone(u, h);
    BlendUndone(u, k);
  }

  /** Two 64-bit dispatches of the same work at the same position never share a key. */
  lemma DispatchTold(a: Authority, d: nat, pos: nat)
    requires a.dispatch < TWO64 && d < TWO64 && AcceptanceKey(a, pos) == AcceptanceKey(a.(dispatch := d), pos)
    ensures a.dispatch == d
  {
    var h := MixAll(OFFSET, Identity(a));
    assert Identity(a.(dispatch := d)) == Identity(a);
    RegisterTold(Mix(h, a.dispatch), Mix(h, d), pos);
    ValueTold(h, a.dispatch, d);
  }

  /** But keys do clash: whatever the two authorities are, some position of the one has the key of the other. */
  lemma KeysClash(a: Authority, p: nat, b: Authority) returns (q: nat)
    ensures q < TWO64 && AcceptanceKey(a, p) == AcceptanceKey(b, q)
  {
    var h, k := Mix(MixAll(OFFSET, Identity(a)), a.dispatch), Mix(MixAll(OFFSET, Identity(b)), b.dispatch);
    q := SameMix(h, k, p);
  }

  lemma SameMix(h: nat, k: nat, p: nat) returns (q: nat)
    ensures q < TWO64 && Mix(h, p) == Mix(k, q)
  {
    var x := Blend(h, p % TWO64);
    q := Blend(k, x);
    Short(q);
    BlendUndone(k, x);
  }
}
