/** The byte writer and the byte reader that all encoders and decoders go through. */
module ByteStreams {
  import opened Types
  import opened Binary
  import BV = BitVectors

  /** `bs`, with `rest` written after it. */
  ghost function Then(bs: seq<byte>, rest: seq<byte>): seq<byte> {
    bs + rest
  }

  lemma {:induction false} PutLEThen(n: nat, v: nat, rest: seq<byte>)
    ensures PutLE(n, v, rest) == PutLE(n, v, []) + rest
  {
    if n > 0 {
      PutLEThen(n - 1, v / 256, rest);
    }
  }

  class Writer {
    var data: seq<byte>

    constructor ()
      ensures data == []
    {
      data := [];
    }

    /** Writes the low `n` bytes of `v`, lowest first. */
    method LittleEndian(n: nat, v: nat)
      modifies this
      ensures forall rest :: Then(data, rest) == Then(old(data), PutLE(n, v, rest))
    {
      var x := v;
      for i := 0 to n
        invariant data + PutLE(n - i, x, []) == old(data) + PutLE(n, v, [])
      {
        data := data + [BV.ByteOf(x % 256)];
        x := x / 256;
      }
      forall rest ensures Then(data, rest) == Then(old(data), PutLE(n, v, rest)) {
        PutLEThen(n, v, rest);
        assert data == old(data) + PutLE(n, v, []);
      }
    }

    method U8(v: nat)
      modifies this
      ensures forall rest :: Then(data, rest) == Then(old(data), Put8(v, rest))
    {
      LittleEndian(1, v);
    }

    method U32(v: nat)
      modifies this
      ensures forall rest :: Then(data, rest) == Then(old(data), Put32(v, rest))
    {
      LittleEndian(4, v);
    }

    method U64(v: nat)
      modifies this
      ensures forall rest :: Then(data, rest) == Then(old(data), Put64(v, rest))
    {
      LittleEndian(8, v);
    }

    method S64(v: int)
      modifies this
      ensures forall rest :: Then(data, rest) == Then(old(data), PutS64(v, rest))
    {
      U64(v % TWO64);
    }

    method Flag(b: bool)
      modifies this
      ensures forall rest :: Then(data, rest) == Then(old(data), PutFlag(b, rest))
    {
      U8(if b then 1 else 0);
    }

    method Raw(v: seq<byte>)
      modifies this
      ensures data == old(data) + v
    {
      data := data + v;
    }

    /** A byte string with its length in front. */
    method Blob(v: seq<byte>)
      modifies this
      ensures forall rest :: Then(data, rest) == Then(old(data), PutBlob(v, rest))
    {
      U64(|v|);
      ghost var mid := data;
      Raw(v);
      forall rest ensures Then(data, rest) == Then(old(data), PutBlob(v, rest)) {
        assert Then(data, rest) == Then(mid, v + rest);
      }
    }
  }

  class Reader {
    const data: seq<byte>
    var pos: nat

    ghost predicate Valid()
      reads this
    {
      pos <= |data|
    }

    /** The bytes not read yet. */
    ghost function Rest(): seq<byte>
      requires Valid()
      reads this
    {
      data[pos..]
    }

    constructor (data: seq<byte>)
      ensures Valid() && Rest() == data
    {
      this.data := data;
      pos := 0;
    }

    /** The read gave what it should, and what is left is what should be left. */
    ghost predicate Advanced<T>(r: Result<T>, want: Result<Got<T>>)
      reads this
    {
      && Valid()
      && (want.Ok? ==> r == Ok(want.value.value) && Rest() == want.value.rest)
      && (want.Err? ==> r == Err(want.error))
    }

    method LittleEndian(n: nat) returns (r: Result<nat>)
      requires Valid()
      modifies this`pos
      ensures Advanced(r, GetLE(n, old(Rest())))
    {
      if pos + n > |data| {
        TooShort(n, Rest());
        return Err(ERR_PERSISTENCE_TRUNCATED);
      }
      var v, i := 0, n;
      while i > 0
        invariant 0 <= i <= n
        invariant GetLE(n - i, data[pos + i..]) == Ok(Got(v, data[pos + n..]))
      {
        i := i - 1;
        assert data[pos + i..][1..] == data[pos + i + 1..];
        v := data[pos + i] as nat + 256 * v;
      }
      pos := pos + n;
      r := Ok(v);
    }

    method U8() returns (r: Result<nat>)
      requires Valid()
      modifies this`pos
      ensures Advanced(r, Get8(old(Rest())))
    {
      r := LittleEndian(1);
    }

    method U32() returns (r: Result<nat>)
      requires Valid()
      modifies this`pos
      ensures Advanced(r, Get32(old(Rest())))
    {
      r := LittleEndian(4);
    }

    method U64() returns (r: Result<nat>)
      requires Valid()
      modifies this`pos
      ensures Advanced(r, Get64(old(Rest())))
    {
      r := LittleEndian(8);
    }

    method S64() returns (r: Result<int>)
      requires Valid()
      modifies this`pos
      ensures Advanced(r, GetS64(old(Rest())))
    {
      var u := U64();
      if u.Err? {
        return Err(u.error);
      }
      r := Ok(if u.value >= TWO63 then u.value - TWO64 else u.value);
    }

    method Flag() returns (r: Result<bool>)
      requires Valid()
      modifies this`pos
      ensures Advanced(r, GetFlag(old(Rest())))
    {
      var u := U8();
      if u.Err? {
        return Err(u.error);
      }
      r := Ok(u.value != 0);
    }

    method Blob() returns (r: Result<seq<byte>>)
      requires Valid()
      modifies this`pos
      ensures Advanced(r, GetBlob(old(Rest())))
    {
      var n := U64();
      if n.Err? {
        return Err(n.error);
      }
      if n.value > |data| - pos {
        return Err(ERR_PERSISTENCE_TRUNCATED);
      }
      if n.value > MAX_BLOB {
        return Err(ERR_BOUNDED_LENGTH);
      }
      assert data[pos..][..n.value] == data[pos..pos + n.value];
      assert data[pos..][n.value..] == data[pos + n.value..];
      r := Ok(data[pos..pos + n.value]);
      pos := pos + n.value;
    }
  }

  lemma {:induction false} TooShort(n: nat, bs: seq<byte>)
    requires n > |bs|
    ensures GetLE(n, bs) == Err(ERR_PERSISTENCE_TRUNCATED)
  {
    if bs != [] {
      TooShort(n - 1, bs[1..]);
    }
  }
}
