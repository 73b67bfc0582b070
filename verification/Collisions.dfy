/** Digest collisions: the one thing that can make two states look alike. */
module Collisions {
  import opened Executor

  /** Position `k` of the recurrence from `o` and position `j` of the one from `p` differ, and share a digest. */
  predicate Collide(num: Numerics, o: Origin, k: nat, p: Origin, j: nat) {
    && OrbitDigest(num, o, k) == OrbitDigest(num, p, j)
    && (k != j || OrbitVec(num, o, k) != OrbitVec(num, p, j) || OrbitKv(o, k) != OrbitKv(p, j))
  }

  /** No two different states that a recurrence reaches share a digest. */
  ghost predicate CollisionFree(num: Numerics) {
    forall o, k, p, j :: !Collide(num, o, k, p, j)
  }

  /** Numbers pairs of numbers. */
  function Paired(x: nat, y: nat): nat {
    (x + y) * (x + y) + y
  }

  lemma {:induction false} SquareGap(s: nat, t: nat)
    requires s < t
    ensures s * s + s < t * t
  {
    assert t * t == (t - 1) * (t - 1) + 2 * t - 1;
    if s < t - 1 {
      SquareGap(s, t - 1);
    }
  }

  lemma PairedInjective(x: nat, y: nat, a: nat, b: nat)
    requires Paired(x, y) == Paired(a, b)
    ensures x == a && y == b
  {
    if x + y < a + b {
      SquareGap(x + y, a + b);
    } else if a + b < x + y {
      SquareGap(a + b, x + y);
    }
  }

  /** A recurrence that stays at its seed, with a digest that numbers seed, position and KV bytes. */
  const Plain: Numerics :=
    Numerics((sid, seed) => [seed as real], v => v, v => 0,
               (v: Vec, n: nat, kv: nat) => if |v| == 1 && v[0] >= 0.0 then Paired(Paired((v[0]).Floor, n), kv) else 0,
               (pre, post) => 0)

  lemma {:induction false} PlainOrbit(o: Origin, n: nat)
    ensures OrbitVec(Plain, o, n) == [o.seed as real]
  {
    if n > 0 {
      PlainOrbit(o, n - 1);
    }
  }

  /** There are numerics without collisions, whose states differ from seed to seed. */
  lemma PlainCollisionFree()
    ensures CollisionFree(Plain)
    ensures forall o: Origin, p: Origin, n :: o.seed != p.seed ==> OrbitVec(Plain, o, n) != OrbitVec(Plain, p, n)
  {
    forall o, k, p, j ensures !Collide(Plain, o, k, p, j) {
      PlainOrbit(o, k);
      PlainOrbit(p, j);
      if OrbitDigest(Plain, o, k) == OrbitDigest(Plain, p, j) {
        PairedInjective(Paired(o.seed, k), OrbitKv(o, k), Paired(p.seed, j), OrbitKv(p, j));
        PairedInjective(o.seed, k, p.seed, j);
      }
    }
    forall o: Origin, p: Origin, n | o.seed != p.seed ensures OrbitVec(Plain, o, n) != OrbitVec(Plain, p, n) {
      PlainOrbit(o, n);
      PlainOrbit(p, n);
    }
  }

  /** Origins that meet at one position stay together. */
  lemma OrbitsMerge(num: Numerics, o: Origin, p: Origin, k: nat)
    requires OrbitDigest(num, o, k) == OrbitDigest(num, p, k) && !Collide(num, o, k, p, k)
    ensures OrbitDigest(num, o, k + 1) == OrbitDigest(num, p, k + 1)
    ensures OrbitVec(num, o, k + 1) == OrbitVec(num, p, k + 1)
  {
  }
}
