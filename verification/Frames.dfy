/**
 Length-prefixed frames, the streaming decoder, and the receive loop over a socket that
 delivers the stream in arbitrary pieces.
 */
module Frames {
  import opened Types
  import opened Binary
  import opened ByteStreams

  const HEADER_BYTES: nat := 12
  const PROTOCOL_VERSION: nat := 1
  const LAST_TYPE: nat := 45

  datatype Frame = Frame(kind: nat, payload: seq<byte>)

  predicate FitsFrame(max: nat, f: Frame) {
    1 <= f.kind <= LAST_TYPE && HEADER_BYTES + |f.payload| <= max
  }

  function PutHeader(length: nat, kind: nat, body: seq<byte>): seq<byte> {
    Put32(length, Put32(PROTOCOL_VERSION, Put32(kind, body)))
  }

  function PutFrame(f: Frame, rest: seq<byte>): seq<byte> {
    PutHeader((HEADER_BYTES + |f.payload|) % TWO32, f.kind, f.payload + rest)
  }

  method WriteHeader(w: Writer, length: nat, kind: nat)
    modifies w
    ensures forall rest :: Then(w.data, rest) == Then(old(w.data), PutHeader(length, kind, rest))
  {
    w.U32(length);
    w.U32(PROTOCOL_VERSION);
    w.U32(kind);
  }

  method EncodeFrame(f: Frame) returns (bytes: seq<byte>)
    ensures bytes == PutFrame(f, [])
  {
    var w := new Writer();
    var length := (HEADER_BYTES + |f.payload|) % TWO32;
    WriteHeader(w, length, f.kind);
    assert Then(w.data, f.payload) == Then([], PutHeader(length, f.kind, f.payload));
    w.Raw(f.payload);
    assert f.payload + [] == f.payload;
    bytes := w.data;
  }

  // ---------------------------------------------------------------------------
  // One frame off the front of a buffer

  datatype Emission = NeedMore | Emitted(frame: Frame, rest: seq<byte>) | Bad(error: nat)

  /** The little-endian number in the first `n` bytes. */
  function ValueLE(n: nat, bs: seq<byte>): nat
    requires n <= |bs|
  {
    if n == 0 then 0 else bs[0] as nat + 256 * ValueLE(n - 1, bs[1..])
  }

  lemma {:induction false} GetLEValue(n: nat, bs: seq<byte>)
    requires n <= |bs|
    ensures GetLE(n, bs) == Ok(Got(ValueLE(n, bs), bs[n..]))
  {
    if n > 0 {
      GetLEValue(n - 1, bs[1..]);
    }
  }

  lemma FourBytes(bs: seq<byte>)
    requires |bs| >= 4
    ensures ValueLE(4, bs)
         == bs[0] as nat + 256 * (bs[1] as nat) + 0x1_0000 * (bs[2] as nat) + 0x100_0000 * (bs[3] as nat)
  {
    assert ValueLE(0, bs[1..][1..][1..][1..]) == 0;
    assert ValueLE(1, bs[1..][1..][1..]) == bs[3] as nat;
    assert ValueLE(2, bs[1..][1..]) == bs[2] as nat + 256 * (bs[3] as nat);
    assert ValueLE(3, bs[1..]) == bs[1] as nat + 256 * (bs[2] as nat) + 0x1_0000 * (bs[3] as nat);
  }

  function Field(buf: seq<byte>, at: nat): nat
    requires at + 4 <= |buf|
  {
    ValueLE(4, buf[at..])
  }

  function TryEmit(max: nat, buf: seq<byte>): Emission {
    if |buf| < 4 then NeedMore else
      var length := Field(buf, 0);
      if length < HEADER_BYTES then Bad(ERR_PROTOCOL_MALFORMED)
      else if length > max then Bad(ERR_PROTOCOL_OVERSIZED)
      else if |buf| < length then NeedMore
      else if Field(buf, 4) != PROTOCOL_VERSION then Bad(ERR_PROTOCOL_UNKNOWN_VERSION)
      else if !(1 <= Field(buf, 8) <= LAST_TYPE) then Bad(ERR_PROTOCOL_UNKNOWN_TYPE)
      else Emitted(Frame(Field(buf, 8), buf[HEADER_BYTES..length]), buf[length..])
  }

  lemma FieldStable(b: seq<byte>, q: seq<byte>, at: nat)
    requires at + 4 <= |b|
    ensures Field(b + q, at) == Field(b, at)
  {
    assert (b + q)[at..] == b[at..] + q;
    GetLEValue(4, b[at..]);
    GetLEValue(4, b[at..] + q);
    MoreLE(4, b[at..], q);
  }

  /** Once enough bytes are there, more bytes do not change the outcome. */
  lemma EmissionStable(max: nat, b: seq<byte>, q: seq<byte>)
    ensures match TryEmit(max, b)
      case Bad(e) => TryEmit(max, b + q) == Bad(e)
      case Emitted(f, rest) => TryEmit(max, b + q) == Emitted(f, rest + q)
      case NeedMore => true
  {
    if |b| >= 4 {
      FieldStable(b, q, 0);
      var n := Field(b, 0);
      if HEADER_BYTES <= n <= |b| {
        FieldStable(b, q, 4);
        FieldStable(b, q, 8);
        assert (b + q)[HEADER_BYTES..n] == b[HEADER_BYTES..n];
        assert (b + q)[n..] == b[n..] + q;
      }
    }
  }

  lemma FieldOfPut(v: nat, rest: seq<byte>)
    requires v < TWO32
    ensures |Put32(v, rest)| == 4 + |rest| && ValueLE(4, Put32(v, rest)) == v && Put32(v, rest)[4..] == rest
  {
    if |Put32(v, rest)| < 4 {
      TooShort(4, Put32(v, rest));
    } else {
      GetLEValue(4, Put32(v, rest));
    }
  }

  lemma HeaderFields(n: nat, kind: nat, body: seq<byte>)
    requires n < TWO32 && kind < TWO32
    ensures var buf := PutHeader(n, kind, body);
      && |buf| == HEADER_BYTES + |body| && buf[HEADER_BYTES..] == body
      && Field(buf, 0) == n && Field(buf, 4) == PROTOCOL_VERSION && Field(buf, 8) == kind
  {
    var third := Put32(kind, body);
    var second := Put32(PROTOCOL_VERSION, third);
    var buf := Put32(n, second);
    FieldOfPut(n, second);
    FieldOfPut(PROTOCOL_VERSION, third);
    FieldOfPut(kind, body);
    assert buf[0..] == buf && buf[4..] == second && buf[8..] == second[4..] == third;
    assert buf[HEADER_BYTES..] == third[4..] == body;
  }

  /** A valid frame comes off the front of whatever stream it starts. */
  lemma EmitsPut(max: nat, f: Frame, rest: seq<byte>)
    requires FitsFrame(max, f) && max < TWO32
    ensures TryEmit(max, PutFrame(f, rest)) == Emitted(f, rest)
  {
    var n, body, buf := HEADER_BYTES + |f.payload|, f.payload + rest, PutFrame(f, rest);
    HeaderFields(n, f.kind, body);
    assert buf[HEADER_BYTES..n] == body[..|f.payload|] == f.payload;
    assert buf[n..] == body[|f.payload|..] == rest;
  }

  // ---------------------------------------------------------------------------
  // The streaming decoder

  class FrameDecoder {
    const max: nat
    var buf: seq<byte>

    constructor (max: nat)
      ensures buf == [] && this.max == max
    {
      this.max := max;
      buf := [];
    }

    /** The 32-bit number at a place of the buffer, least significant byte first. */
    method FieldAt(at: nat) returns (v: nat)
      requires at + 4 <= |buf|
      ensures v == Field(buf, at)
    {
      var bs := buf[at..];
      v := bs[0] as nat + 256 * (bs[1] as nat) + 0x1_0000 * (bs[2] as nat) + 0x100_0000 * (bs[3] as nat);
      FourBytes(bs);
    }

    method KnownType(kind: nat) returns (known: bool)
      ensures known <==> 1 <= kind <= LAST_TYPE
    {
      known := false;
      var t := 1;
      while t <= LAST_TYPE
        invariant 1 <= t <= LAST_TYPE + 1 && !known && !(1 <= kind < t)
      {
        if t == kind {
          return true;
        }
        t := t + 1;
      }
    }

    /** Emits the first frame if it is complete; an error throws the buffered bytes away. */
    method Emit() returns (r: Result<Option<Frame>>)
      modifies this`buf
      ensures match TryEmit(max, old(buf))
        case NeedMore => r == Ok(None) && buf == old(buf)
        case Bad(e) => r == Err(e) && buf == []
        case Emitted(f, rest) => r == Ok(Some(f)) && buf == rest
    {
      if |buf| < 4 {
        return Ok(None);
      }
      var length := FieldAt(0);
      if length < HEADER_BYTES {
        buf := [];
        return Err(ERR_PROTOCOL_MALFORMED);
      }
      if length > max {
        buf := [];
        return Err(ERR_PROTOCOL_OVERSIZED);
      }
      if |buf| < length {
        return Ok(None);
      }
      var version := FieldAt(4);
      if version != PROTOCOL_VERSION {
        buf := [];
        return Err(ERR_PROTOCOL_UNKNOWN_VERSION);
      }
      var kind := FieldAt(8);
      var known := KnownType(kind);
      if !known {
        buf := [];
        return Err(ERR_PROTOCOL_UNKNOWN_TYPE);
      }
      r := Ok(Some(Frame(kind, buf[HEADER_BYTES..length])));
      buf := buf[length..];
    }

    method Feed(data: seq<byte>) returns (r: Result<Option<Frame>>)
      modifies this`buf
      ensures match TryEmit(max, old(buf) + data)
        case NeedMore => r == Ok(None) && buf == old(buf) + data
        case Bad(e) => r == Err(e) && buf == []
        case Emitted(f, rest) => r == Ok(Some(f)) && buf == rest
    {
      buf := buf + data;
      r := Emit();
    }
  }

  // ---------------------------------------------------------------------------
  // Receiving

  /** What one read from the socket gives. */
  datatype Arrival = Bytes(data: seq<byte>) | Interrupted | Failed

  /** The bytes that can be read before the socket fails. */
  function Flat(arrivals: seq<Arrival>): seq<byte> {
    if arrivals == [] || arrivals[0].Failed? then []
    else if arrivals[0].Interrupted? then Flat(arrivals[1..])
    else arrivals[0].data + Flat(arrivals[1..])
  }

  /** What is left after the first failure. */
  function Beyond(arrivals: seq<Arrival>): seq<Arrival> {
    if arrivals == [] then [] else if arrivals[0].Failed? then arrivals[1..] else Beyond(arrivals[1..])
  }

  /** One end of a connection. Each read delivers the next piece; a missing one means the peer closed. */
  class Connection {
    const decoder: FrameDecoder
    var incoming: seq<Arrival>

    constructor (max: nat, incoming: seq<Arrival>)
      ensures decoder.buf == [] && decoder.max == max && this.incoming == incoming && fresh(decoder)
    {
      decoder := new FrameDecoder(max);
      this.incoming := incoming;
    }

    /** Everything still to be decoded before a failure, buffered or not yet read. */
    ghost function Stream(): seq<byte>
      reads this, decoder
    {
      decoder.buf + Flat(incoming)
    }

    /** The result depends on the stream alone, not on how it is cut into pieces or interrupted. */
    method RecvFrame() returns (r: Result<Frame>)
      modifies this`incoming, decoder`buf
      ensures match TryEmit(decoder.max, old(Stream()))
        case NeedMore => r == Err(ERR_BACKEND) && decoder.buf == old(Stream()) && incoming == old(Beyond(incoming))
        case Bad(e) => r == Err(e)
        case Emitted(f, rest) => r == Ok(f) && Stream() == rest && Beyond(incoming) == old(Beyond(incoming))
    {
      while true
        invariant Stream() == old(Stream()) && Beyond(incoming) == old(Beyond(incoming))
        decreases |incoming|
      {
        EmissionStable(decoder.max, decoder.buf, Flat(incoming));
        assert decoder.buf + [] == decoder.buf;
        var fed :- decoder.Feed([]);
        if fed.Some? {
          return Ok(fed.value);
        }
        if incoming == [] {
          return Err(ERR_BACKEND);
        }
        var next := incoming[0];
        incoming := incoming[1..];
        if next.Failed? {
          return Err(ERR_BACKEND);
        }
        if next.Interrupted? {
          continue;
        }
        ghost var whole := decoder.buf + next.data;
        EmissionStable(decoder.max, whole, Flat(incoming));
        assert whole + Flat(incoming) == decoder.buf + (next.data + Flat(incoming));
        var fed2 :- decoder.Feed(next.data);
        if fed2.Some? {
          return Ok(fed2.value);
        }
      }
    }

    /**
     Receives a known number of frames: for every list of valid frames and every way of
     cutting their bytes into pieces and interrupting the reads, exactly that list comes out
     and no byte is left over.
     */
    method RecvAll(ghost frames: seq<Frame>, n: nat) returns (out: seq<Frame>)
      requires n == |frames| && decoder.max < TWO32 && forall f | f in frames :: FitsFrame(decoder.max, f)
      requires Stream() == PutFrames(frames)
      modifies this`incoming, decoder`buf
      ensures out == frames && decoder.buf == [] && Flat(incoming) == []
    {
      out := [];
      for i := 0 to n
        invariant Stream() == PutFrames(frames[i..]) && out == frames[..i]
      {
        assert frames[i..][1..] == frames[i + 1..] && frames[i] in frames;
        EmitsPut(decoder.max, frames[i], PutFrames(frames[i + 1..]));
        var f := RecvFrame();
        out := out + [f.value];
      }
      assert frames[..n] == frames && frames[n..] == [];
      assert |Stream()| == 0;
    }
  }

  function PutFrames(frames: seq<Frame>): seq<byte> {
    if frames == [] then [] else PutFrame(frames[0], PutFrames(frames[1..]))
  }
}
