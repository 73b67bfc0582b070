/**
 Little-endian integers and length-prefixed byte strings. `Put` prepends a value to the
 bytes that follow it; `Get` takes it off again and returns what follows.
 */
module Binary {
  import opened Types
  import BV = BitVectors

  /** A value read, and the bytes after it. */
  datatype Got<+T> = Got(value: T, rest: seq<byte>)

  function Pow256(n: nat): nat {
    if n == 0 then 1 else 256 * Pow256(n - 1)
  }

  function PutLE(n: nat, v: nat, rest: seq<byte>): seq<byte> {
    if n == 0 then rest else [BV.ByteOf(v % 256)] + PutLE(n - 1, v / 256, rest)
  }

  function GetLE(n: nat, bs: seq<byte>): Result<Got<nat>> {
    if n == 0 then Ok(Got(0, bs))
    else if bs == [] then Err(ERR_PERSISTENCE_TRUNCATED)
    else
      var hi :- GetLE(n - 1, bs[1..]);
      Ok(Got(bs[0] as nat + 256 * hi.value, hi.rest))
  }

  lemma {:induction false} LosslessLE(n: nat, v: nat, rest: seq<byte>)
    requires v < Pow256(n)
    ensures GetLE(n, PutLE(n, v, rest)) == Ok(Got(v, rest))
  {
    if n > 0 {
      LosslessLE(n - 1, v / 256, rest);
      var bs := PutLE(n, v, rest);
      assert bs[1..] == PutLE(n - 1, v / 256, rest);
      assert bs[0] == BV.ByteOf(v % 256);
      BV.ByteValue(v % 256);
      assert GetLE(n, bs) == Ok(Got(bs[0] as nat + 256 * (v / 256), rest));
    }
  }

  lemma Powers()
    ensures Pow256(1) == 256 && Pow256(2) == 0x1_0000 && Pow256(4) == TWO32 && Pow256(8) == TWO64
  {
    assert Pow256(6) == 0x1_0000_0000_0000;
  }

  lemma {:induction false} BoundLE(n: nat, bs: seq<byte>)
    ensures GetLE(n, bs).Ok? ==> GetLE(n, bs).value.value < Pow256(n)
  {
    if n > 0 && bs != [] {
      BoundLE(n - 1, bs[1..]);
    }
  }

  function Put8(v: nat, rest: seq<byte>): (r: seq<byte>)
    ensures v < 256 ==> Get8(r) == Ok(Got(v, rest))
  {
    Powers();
    if v < 256 then LosslessLE(1, v, rest); PutLE(1, v, rest) else PutLE(1, v, rest)
  }

  function Put32(v: nat, rest: seq<byte>): (r: seq<byte>)
    ensures v < TWO32 ==> Get32(r) == Ok(Got(v, rest))
  {
    Powers();
    if v < TWO32 then LosslessLE(4, v, rest); PutLE(4, v, rest) else PutLE(4, v, rest)
  }

  function Put64(v: nat, rest: seq<byte>): (r: seq<byte>)
    ensures v < TWO64 ==> Get64(r) == Ok(Got(v, rest))
  {
    Powers();
    if v < TWO64 then LosslessLE(8, v, rest); PutLE(8, v, rest) else PutLE(8, v, rest)
  }

  function Get8(bs: seq<byte>): Result<Got<nat>> {
    GetLE(1, bs)
  }

  function Get32(bs: seq<byte>): Result<Got<nat>> {
    GetLE(4, bs)
  }

  function Get64(bs: seq<byte>): Result<Got<nat>> {
    GetLE(8, bs)
  }

  // ---------------------------------------------------------------------------
  // Signed numbers, flags, byte strings

  const TWO63: nat := 0x8000_0000_0000_0000

  predicate Signed64(v: int) {
    -(TWO63 as int) <= v < TWO63
  }

  /** Two's complement. */
  function PutS64(v: int, rest: seq<byte>): (r: seq<byte>)
    ensures Signed64(v) ==> GetS64(r) == Ok(Got(v, rest))
  {
    Put64(v % TWO64, rest)
  }

  function GetS64(bs: seq<byte>): Result<Got<int>> {
    var u :- Get64(bs);
    Ok(Got(if u.value >= TWO63 then u.value - TWO64 else u.value, u.rest))
  }

  function PutFlag(b: bool, rest: seq<byte>): (r: seq<byte>)
    ensures GetFlag(r) == Ok(Got(b, rest))
  {
    Put8(if b then 1 else 0, rest)
  }

  /** Any non-zero byte is true. */
  function GetFlag(bs: seq<byte>): Result<Got<bool>> {
    var u :- Get8(bs);
    Ok(Got(u.value != 0, u.rest))
  }

  const MAX_BLOB: nat := 0x1_0000_0000

  function PutBlob(v: seq<byte>, rest: seq<byte>): (r: seq<byte>)
    ensures |v| <= MAX_BLOB ==> GetBlob(r) == Ok(Got(v, rest))
  {
    assert (v + rest)[..|v|] == v && (v + rest)[|v|..] == rest;
    Put64(|v|, v + rest)
  }

  function GetBlob(bs: seq<byte>): Result<Got<seq<byte>>> {
    var n :- Get64(bs);
    if n.value > |n.rest| then Err(ERR_PERSISTENCE_TRUNCATED)
    else if n.value > MAX_BLOB then Err(ERR_BOUNDED_LENGTH)
    else Ok(Got(n.rest[..n.value], n.rest[n.value..]))
  }

  // ---------------------------------------------------------------------------
  // More bytes after a value do not change it

  /** `b` with `q` after it reads as the same value, with `q` left over at the end. */
  ghost predicate Same<T>(short: Result<Got<T>>, long: Result<Got<T>>, q: seq<byte>) {
    short.Ok? ==> long == Ok(Got(short.value.value, short.value.rest + q))
  }

  lemma {:induction false} MoreLE(n: nat, b: seq<byte>, q: seq<byte>)
    ensures Same(GetLE(n, b), GetLE(n, b + q), q)
  {
    if n > 0 && b != [] {
      MoreLE(n - 1, b[1..], q);
      assert (b + q)[1..] == b[1..] + q;
    }
  }

  lemma MoreBlob(b: seq<byte>, q: seq<byte>)
    ensures Same(GetBlob(b), GetBlob(b + q), q)
  {
    MoreLE(8, b, q);
    if GetBlob(b).Ok? {
      var n := Get64(b).value;
      assert (n.rest + q)[..n.value] == n.rest[..n.value];
      assert (n.rest + q)[n.value..] == n.rest[n.value..] + q;
    }
  }

  lemma More(q: seq<byte>)
    ensures forall b {:trigger Get8(b + q)} :: Same(Get8(b), Get8(b + q), q)
    ensures forall b {:trigger Get32(b + q)} :: Same(Get32(b), Get32(b + q), q)
    ensures forall b {:trigger Get64(b + q)} :: Same(Get64(b), Get64(b + q), q)
    ensures forall b {:trigger GetBlob(b + q)} :: Same(GetBlob(b), GetBlob(b + q), q)
    ensures forall b {:trigger GetS64(b + q)} :: Same(GetS64(b), GetS64(b + q), q)
    ensures forall b {:trigger GetFlag(b + q)} :: Same(GetFlag(b), GetFlag(b + q), q)
  {
    forall b ensures Same(Get8(b), Get8(b + q), q) { MoreLE(1, b, q); }
    forall b ensures Same(Get32(b), Get32(b + q), q) { MoreLE(4, b, q); }
    forall b ensures Same(Get64(b), Get64(b + q), q) { MoreLE(8, b, q); }
    forall b ensures Same(GetBlob(b), GetBlob(b + q), q) { MoreBlob(b, q); }
  }

  // ---------------------------------------------------------------------------
  // Lists, and whole messages

  function PutAll<T>(put: (T, seq<byte>) -> seq<byte>, xs: seq<T>, rest: seq<byte>): seq<byte> {
    if xs == [] then rest else put(xs[0], PutAll(put, xs[1..], rest))
  }

  function GetAll<T>(get: seq<byte> -> Result<Got<T>>, n: nat, bs: seq<byte>): Result<Got<seq<T>>> {
    if n == 0 then Ok(Got([], bs)) else
      var x :- get(bs);
      var xs :- GetAll(get, n - 1, x.rest);
      Ok(Got([x.value] + xs.value, xs.rest))
  }

  /** The elements read before the first one that cannot be, and what follows them or the error. */
  datatype Stretch<+T> = Stretch(read: seq<T>, end: Result<seq<byte>>)

  function ReadAll<T>(get: seq<byte> -> Result<Got<T>>, n: nat, bs: seq<byte>): Stretch<T> {
    if n == 0 then Stretch([], Ok(bs)) else
      match get(bs)
      case Err(e) => Stretch([], Err(e))
      case Ok(x) => Ahead([x.value], ReadAll(get, n - 1, x.rest))
  }

  function Ahead<T>(done: seq<T>, s: Stretch<T>): Stretch<T> {
    s.(read := done + s.read)
  }

  /** Either everything is read or nothing is returned. */
  function Entire<T>(s: Stretch<T>): Result<Got<seq<T>>> {
    if s.end.Ok? then Ok(Got(s.read, s.end.value)) else Err(s.end.error)
  }

  lemma {:induction false} AllOrNothing<T>(get: seq<byte> -> Result<Got<T>>, n: nat, bs: seq<byte>)
    ensures GetAll(get, n, bs) == Entire(ReadAll(get, n, bs))
  {
    if n > 0 && get(bs).Ok? {
      AllOrNothing(get, n - 1, get(bs).value.rest);
    }
  }

  lemma {:induction false} LosslessAll<T>(put: (T, seq<byte>) -> seq<byte>, get: seq<byte> -> Result<Got<T>>,
                                          xs: seq<T>, rest: seq<byte>)
    requires forall x, r | x in xs :: get(put(x, r)) == Ok(Got(x, r))
    ensures GetAll(get, |xs|, PutAll(put, xs, rest)) == Ok(Got(xs, rest))
  {
    if xs != [] {
      LosslessAll(put, get, xs[1..], rest);
      assert xs == [xs[0]] + xs[1..];
    }
  }

  ghost predicate Extensible<T>(get: seq<byte> -> Result<Got<T>>) {
    forall b, q :: Same(get(b), get(b + q), q)
  }

  lemma {:induction false} MoreAll<T>(get: seq<byte> -> Result<Got<T>>, n: nat, b: seq<byte>, q: seq<byte>)
    requires Extensible(get)
    ensures Same(GetAll(get, n, b), GetAll(get, n, b + q), q)
  {
    if n > 0 && get(b).Ok? {
      assert Same(get(b), get(b + q), q);
      MoreAll(get, n - 1, get(b).value.rest, q);
    }
  }

  /** Decoding a whole message; bytes after it are ignored. */
  function Message<T>(r: Result<Got<T>>): Result<T> {
    if r.Ok? then Ok(r.value.value) else Err(r.error)
  }

  /** What a complete encoding decodes to, its extensions decode to as well, and its strict prefixes do not decode. */
  lemma Exact<T>(get: seq<byte> -> Result<Got<T>>, whole: seq<byte>, x: T, q: seq<byte>, p: seq<byte>)
    requires Extensible(get) && get(whole) == Ok(Got(x, []))
    ensures Message(get(whole + q)) == Ok(x)
    ensures p < whole ==> get(p).Err?
  {
    assert Same(get(whole), get(whole + q), q);
    if p < whole {
      var missing := whole[|p|..];
      assert whole == p + missing;
      assert Same(get(p), get(p + missing), missing);
    }
  }
}
