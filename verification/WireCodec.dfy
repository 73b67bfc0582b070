/** Encoders that push fields into a writer and decoders that advance a reader, tied to `Codec`. */
module WireCodec {
  import opened Types
  import opened Binary
  import opened ByteStreams
  import C = Codec

  // ---------------------------------------------------------------------------
  // Encoders

  /** What a fresh writer holds once a whole message is written. */
  lemma Whole(data: seq<byte>, message: seq<byte>)
    requires Then(data, []) == Then([], message)
    ensures data == message
  {
    assert data + [] == data && [] + message == message;
  }

  method WriteAuthority(w: Writer, a: Authority)
    modifies w
    ensures forall rest :: Then(w.data, rest) == Then(old(w.data), C.PutAuthority(a, rest))
  {
    w.U64(a.epoch); w.U64(a.worker); w.U64(a.workerBoot);
    w.U64(a.sequence); w.U64(a.state); w.U64(a.attempt);
    w.U64(a.generation); w.U64(a.dispatch);
  }

  method WriteIdentity(w: Writer, a: Authority)
    modifies w
    ensures forall rest :: Then(w.data, rest) == Then(old(w.data), C.PutIdentity(a, rest))
  {
    w.U64(a.sequence); w.U64(a.state); w.U64(a.attempt);
    w.U64(a.generation); w.U64(a.dispatch); w.U64(a.epoch);
    w.U64(a.worker); w.U64(a.workerBoot);
  }

  method WriteKey(w: Writer, k: CompatibilityKey)
    modifies w
    ensures forall rest :: Then(w.data, rest) == Then(old(w.data), C.PutKey(k, rest))
  {
    w.U64(k.model); w.U64(k.revision); w.U64(k.adapter);
    w.U8(k.backend);
    w.U64(k.device);
    w.U8(k.dtype);
    w.U32(k.tensorLayout); w.U32(k.kvRepresentation);
    w.U32(k.sequenceRequirements); w.U32(k.operatorPolicy);
  }

  method WriteDevice(w: Writer, d: DeviceDescriptor)
    modifies w
    ensures forall rest :: Then(w.data, rest) == Then(old(w.data), C.PutDevice(d, rest))
  {
    w.U64(d.id); w.U8(d.backend); w.Blob(d.name);
    w.U32(d.computeMajor); w.U32(d.computeMinor);
    w.U64(d.memoryBytes); w.U32(d.supportedDtypes); w.U32(d.maxGroups);
  }

  method WriteState(w: Writer, s: StateDescriptor)
    modifies w
    ensures forall rest :: Then(w.data, rest) == Then(old(w.data), C.PutState(s, rest))
  {
    w.U64(s.id); w.U64(s.generation); w.U64(s.device);
    w.U64(s.bytesHeld); w.U64(s.estimatedGrowth); w.U64(s.ownerTag); w.U64(s.accessVersion);
  }

  method WriteMember(w: Writer, m: MemberSpec)
    modifies w
    ensures forall rest :: Then(w.data, rest) == Then(old(w.data), C.PutMember(m, rest))
  {
    w.U64(m.sequence); w.U64(m.attempt); w.U64(m.generation);
    WriteState(w, m.state);
    w.U64(m.currentLength); w.U64(m.generatedTokens); w.U64(m.remainingBudget);
    w.Blob(m.payload);
  }

  method WriteHeader(w: Writer, h: C.Header)
    modifies w
    ensures forall rest :: Then(w.data, rest) == Then(old(w.data), C.PutHeader(h, rest))
  {
    w.U64(h.dispatch); w.U64(h.epoch); w.U64(h.worker); w.U64(h.workerBoot);
  }

  method WriteMembers(w: Writer, ms: seq<MemberSpec>)
    modifies w
    ensures forall rest :: Then(w.data, rest) == Then(old(w.data), C.PutList(C.PutMember, ms, rest))
  {
    w.U64(|ms|);
    ghost var start := w.data;
    for i := 0 to |ms|
      invariant forall rest ::
        Then(w.data, PutAll(C.PutMember, ms[i..], rest)) == Then(start, PutAll(C.PutMember, ms, rest))
    {
      assert ms[i..][1..] == ms[i + 1..];
      WriteMember(w, ms[i]);
    }
    assert forall rest :: PutAll(C.PutMember, ms[|ms|..], rest) == rest;
  }

  method WritePlacement(w: Writer, p: C.Placement)
    modifies w
    ensures forall rest :: Then(w.data, rest) == Then(old(w.data), C.PutPlacement(p, rest))
  {
    WriteHeader(w, p.header);
    w.U64(p.reservation);
    WriteKey(w, p.key);
    WriteDevice(w, p.device);
  }

  method EncodeExecuteRequest(req: ExecutionRequest) returns (bytes: seq<byte>)
    ensures bytes == C.PutRequest(req, [])
  {
    var w := new Writer();
    WritePlacement(w, C.Placement(C.Header(req.dispatch, req.epoch, req.worker, req.workerBoot),
                                  req.reservation, req.key, req.device));
    WriteMembers(w, req.members);
    w.Blob(req.groupPayload);
    w.S64(req.deadlineHint);
    Whole(w.data, C.PutRequest(req, []));
    bytes := w.data;
  }

  method WriteOutcome(w: Writer, o: MemberOutcome)
    modifies w
    ensures forall rest :: Then(w.data, rest) == Then(old(w.data), C.PutOutcome(o, rest))
  {
    w.U64(o.sequence);
    w.U8(o.kind);
    w.U64(o.generated); w.U64(o.token);
    w.Flag(o.terminal);
    w.U32(o.errorCode); w.Blob(o.errorText);
    w.Flag(o.retryable);
    w.S64(o.startedAt); w.S64(o.finishedAt); w.S64(o.activeNs);
    w.U64(o.kvDelta); w.U64(o.kvAfter);
    w.U64(o.attempt); w.U64(o.generation);
  }

  method WritePreparedMember(w: Writer, p: PreparedMember)
    modifies w
    ensures forall rest :: Then(w.data, rest) == Then(old(w.data), C.PutPreparedMember(p, rest))
  {
    WriteIdentity(w, p.auth);
    w.U64(p.proposal);
    w.U64(p.pre); w.U64(p.post); w.U64(p.delta);
    w.U64(p.before); w.U64(p.after);
    w.S64(p.activeNs);
    WriteOutcome(w, p.outcome);
  }

  method WritePreparedMembers(w: Writer, ms: seq<PreparedMember>)
    modifies w
    ensures forall rest :: Then(w.data, rest) == Then(old(w.data), C.PutList(C.PutPreparedMember, ms, rest))
  {
    w.U64(|ms|);
    ghost var start := w.data;
    for i := 0 to |ms|
      invariant forall rest ::
        Then(w.data, PutAll(C.PutPreparedMember, ms[i..], rest)) == Then(start, PutAll(C.PutPreparedMember, ms, rest))
    {
      assert ms[i..][1..] == ms[i + 1..];
      WritePreparedMember(w, ms[i]);
    }
    assert forall rest :: PutAll(C.PutPreparedMember, ms[|ms|..], rest) == rest;
  }

  method EncodePreparedResult(res: PreparedDecode) returns (bytes: seq<byte>)
    ensures bytes == C.PutPrepared(res, [])
  {
    var w := new Writer();
    WriteHeader(w, C.Header(res.dispatch, res.epoch, res.worker, res.workerBoot));
    w.S64(res.activeNs);
    w.U32(res.groupError);
    w.Blob(res.groupErrorText);
    WritePreparedMembers(w, res.members);
    Whole(w.data, C.PutPrepared(res, []));
    bytes := w.data;
  }

  method WriteGrant(w: Writer, g: CommitGrant)
    modifies w
    ensures forall rest :: Then(w.data, rest) == Then(old(w.data), C.PutGrant(g, rest))
  {
    w.U64(g.grant); w.U64(g.proposal);
    WriteAuthority(w, g.auth);
    w.U64(g.position);
    w.U64(g.pre); w.U64(g.post); w.U64(g.delta);
    w.U8(g.kind); w.Flag(g.terminal);
    w.U32(g.token); w.S64(g.activeNs);
  }

  method EncodeCommitGrant(g: CommitGrant) returns (bytes: seq<byte>)
    ensures bytes == C.PutGrant(g, [])
  {
    var w := new Writer();
    WriteGrant(w, g);
    Whole(w.data, C.PutGrant(g, []));
    bytes := w.data;
  }

  method WriteReceipt(w: Writer, m: MemberReceipt)
    modifies w
    ensures forall rest :: Then(w.data, rest) == Then(old(w.data), C.PutReceipt(m, rest))
  {
    w.U64(m.receipt); w.U64(m.grant); w.U64(m.proposal);
    WriteAuthority(w, m.auth);
    w.U64(m.before); w.U64(m.after);
    w.U64(m.pre); w.U64(m.post); w.U64(m.delta);
    w.U8(m.kind); w.Flag(m.terminal);
    w.U32(m.token); w.S64(m.activeNs); w.S64(m.committedAt);
  }

  method WriteReceipts(w: Writer, ms: seq<MemberReceipt>)
    modifies w
    ensures forall rest :: Then(w.data, rest) == Then(old(w.data), C.PutList(C.PutReceipt, ms, rest))
  {
    w.U64(|ms|);
    ghost var start := w.data;
    for i := 0 to |ms|
      invariant forall rest ::
        Then(w.data, PutAll(C.PutReceipt, ms[i..], rest)) == Then(start, PutAll(C.PutReceipt, ms, rest))
    {
      assert ms[i..][1..] == ms[i + 1..];
      WriteReceipt(w, ms[i]);
    }
    assert forall rest :: PutAll(C.PutReceipt, ms[|ms|..], rest) == rest;
  }

  method EncodeCommitReceipts(res: ReceiptDecode) returns (bytes: seq<byte>)
    ensures bytes == C.PutReceipts(res, [])
  {
    var w := new Writer();
    WriteHeader(w, C.Header(res.dispatch, res.epoch, res.worker, res.workerBoot));
    w.U32(res.groupError);
    w.Blob(res.groupErrorText);
    WriteReceipts(w, res.receipts);
    Whole(w.data, C.PutReceipts(res, []));
    bytes := w.data;
  }

  method EncodeAbortPrepared(a: AbortPrepared) returns (bytes: seq<byte>)
    ensures bytes == C.PutAbort(a, [])
  {
    var w := new Writer();
    w.U64(a.proposal);
    WriteIdentity(w, a.auth);
    Whole(w.data, C.PutAbort(a, []));
    bytes := w.data;
  }

  // ---------------------------------------------------------------------------
  // Decoders

  method ReadAuthority(r: Reader) returns (res: Result<Authority>)
    requires r.Valid()
    modifies r`pos
    ensures r.Advanced(res, C.GetAuthority(old(r.Rest())))
  {
    var epoch :- r.U64();
    var worker :- r.U64();
    var boot :- r.U64();
    var sequence :- r.U64();
    var state :- r.U64();
    var attempt :- r.U64();
    var generation :- r.U64();
    var dispatch :- r.U64();
    return Ok(Authority(epoch, worker, boot, sequence, state, attempt, generation, dispatch));
  }

  method ReadIdentity(r: Reader) returns (res: Result<Authority>)
    requires r.Valid()
    modifies r`pos
    ensures r.Advanced(res, C.GetIdentity(old(r.Rest())))
  {
    var sequence :- r.U64();
    var state :- r.U64();
    var attempt :- r.U64();
    var generation :- r.U64();
    var dispatch :- r.U64();
    var epoch :- r.U64();
    var worker :- r.U64();
    var boot :- r.U64();
    return Ok(Authority(epoch, worker, boot, sequence, state, attempt, generation, dispatch));
  }

  method ReadKey(r: Reader) returns (res: Result<CompatibilityKey>)
    requires r.Valid()
    modifies r`pos
    ensures r.Advanced(res, C.GetKey(old(r.Rest())))
  {
    var model :- r.U64();
    var revision :- r.U64();
    var adapter :- r.U64();
    var backend :- r.U8();
    var device :- r.U64();
    var dtype :- r.U8();
    var layout :- r.U32();
    var kv :- r.U32();
    var requirements :- r.U32();
    var policy :- r.U32();
    return Ok(CompatibilityKey(model, revision, adapter, backend, device, dtype, layout, kv, requirements, policy));
  }

  method ReadDevice(r: Reader) returns (res: Result<DeviceDescriptor>)
    requires r.Valid()
    modifies r`pos
    ensures r.Advanced(res, C.GetDevice(old(r.Rest())))
  {
    var id :- r.U64();
    var backend :- r.U8();
    var name :- r.Blob();
    var major :- r.U32();
    var minor :- r.U32();
    var memory :- r.U64();
    var dtypes :- r.U32();
    var groups :- r.U32();
    return Ok(DeviceDescriptor(id, backend, name, major, minor, memory, dtypes, groups));
  }

  method ReadState(r: Reader) returns (res: Result<StateDescriptor>)
    requires r.Valid()
    modifies r`pos
    ensures r.Advanced(res, C.GetState(old(r.Rest())))
  {
    var id :- r.U64();
    var generation :- r.U64();
    var device :- r.U64();
    var held :- r.U64();
    var growth :- r.U64();
    var tag :- r.U64();
    var version :- r.U64();
    return Ok(StateDescriptor(id, generation, device, held, growth, tag, version));
  }

  method ReadMember(r: Reader) returns (res: Result<MemberSpec>)
    requires r.Valid()
    modifies r`pos
    ensures r.Advanced(res, C.GetMember(old(r.Rest())))
  {
    var sequence :- r.U64();
    var attempt :- r.U64();
    var generation :- r.U64();
    var state :- ReadState(r);
    var length :- r.U64();
    var tokens :- r.U64();
    var budget :- r.U64();
    var payload :- r.Blob();
    return Ok(MemberSpec(sequence, attempt, generation, state, length, tokens, budget, payload));
  }

  /** The elements already read, in front of the rest of the list. */
  ghost function After<T>(done: seq<T>, more: Result<Got<seq<T>>>): Result<Got<seq<T>>> {
    if more.Ok? then Ok(Got(done + more.value.value, more.value.rest)) else more
  }

  lemma NothingRead<T>(more: Result<Got<seq<T>>>)
    ensures After([], more) == more
  {
    if more.Ok? {
      assert [] + more.value.value == more.value.value;
    }
  }

  lemma AllRead<T>(get: seq<byte> -> Result<Got<T>>, bs: seq<byte>, done: seq<T>)
    ensures After(done, GetAll(get, 0, bs)) == Ok(Got(done, bs))
  {
    assert done + [] == done;
  }

  lemma OneMore<T>(get: seq<byte> -> Result<Got<T>>, n: nat, bs: seq<byte>, done: seq<T>)
    requires n > 0
    ensures get(bs).Err? ==> After(done, GetAll(get, n, bs)) == Err(get(bs).error)
    ensures get(bs).Ok? ==>
      After(done, GetAll(get, n, bs)) == After(done + [get(bs).value.value], GetAll(get, n - 1, get(bs).value.rest))
  {
    if get(bs).Ok? && GetAll(get, n - 1, get(bs).value.rest).Ok? {
      var x, xs := get(bs).value.value, GetAll(get, n - 1, get(bs).value.rest).value.value;
      assert done + ([x] + xs) == done + [x] + xs;
    }
  }

  ghost predicate ReadsAt<T>(get: seq<byte> -> Result<Got<T>>, rests: seq<seq<byte>>, read: seq<T>, i: nat)
    requires i < |read| < |rests|
  {
    get(rests[i]) == Ok(Got(read[i], rests[i + 1]))
  }

  /** `rests[i]` is what is left after `i` elements of the list at `rests[0]`. */
  ghost predicate Trail<T>(get: seq<byte> -> Result<Got<T>>, n: nat, rests: seq<seq<byte>>, s: Stretch<T>) {
    && |rests| == |s.read| + 1 && |s.read| <= n
    && (forall i | 0 <= i < |s.read| :: ReadsAt(get, rests, s.read, i))
    && (if |s.read| == n then s.end == Ok(rests[n])
        else s.end.Err? && get(rests[|s.read|]) == Err(s.end.error))
  }

  lemma {:induction false} TrailOf<T>(get: seq<byte> -> Result<Got<T>>, n: nat, bs: seq<byte>)
    returns (rests: seq<seq<byte>>)
    ensures Trail(get, n, rests, ReadAll(get, n, bs)) && rests[0] == bs
  {
    rests := [bs];
    if n > 0 && get(bs).Ok? {
      var more := TrailOf(get, n - 1, get(bs).value.rest);
      rests := [bs] + more;
      var s, s' := ReadAll(get, n, bs), ReadAll(get, n - 1, get(bs).value.rest);
      forall i | 0 <= i < |s.read| ensures ReadsAt(get, rests, s.read, i) {
        assert i > 0 ==> ReadsAt(get, more, s'.read, i - 1);
      }
    }
  }

  /** At place `i` the next element is read, or the list breaks off. */
  lemma TrailAt<T>(get: seq<byte> -> Result<Got<T>>, n: nat, rests: seq<seq<byte>>, s: Stretch<T>, i: nat)
    requires Trail(get, n, rests, s) && i <= |s.read| && i < n
    ensures i < |s.read| ==>
      get(rests[i]) == Ok(Got(s.read[i], rests[i + 1])) && s.read[..i + 1] == s.read[..i] + [s.read[i]]
    ensures i == |s.read| ==> s.end.Err? && get(rests[i]) == Err(s.end.error) && s.read[..i] == s.read
  {
    assert i < |s.read| ==> ReadsAt(get, rests, s.read, i);
  }

  method ReadMembers(r: Reader) returns (res: Result<seq<MemberSpec>>)
    requires r.Valid()
    modifies r`pos
    ensures r.Advanced(res, C.GetList(C.GetMember, old(r.Rest())))
  {
    var n :- r.U64();
    if n > C.MAX_LIST {
      return Err(ERR_PROTOCOL_INVALID_FIELD);
    }
    var out: seq<MemberSpec> := [];
    ghost var start := r.Rest();
    NothingRead(GetAll(C.GetMember, n, start));
    for i := 0 to n
      invariant r.Valid() && GetAll(C.GetMember, n, start) == After(out, GetAll(C.GetMember, n - i, r.Rest()))
    {
      OneMore(C.GetMember, n - i, r.Rest(), out);
      var m :- ReadMember(r);
      out := out + [m];
    }
    AllRead(C.GetMember, r.Rest(), out);
    return Ok(out);
  }

  method ReadHeader(r: Reader) returns (res: Result<C.Header>)
    requires r.Valid()
    modifies r`pos
    ensures r.Advanced(res, C.GetHeader(old(r.Rest())))
  {
    var dispatch :- r.U64();
    var epoch :- r.U64();
    var worker :- r.U64();
    var boot :- r.U64();
    return Ok(C.Header(dispatch, epoch, worker, boot));
  }

  method DecodeExecuteRequest(bytes: seq<byte>) returns (res: Result<ExecutionRequest>)
    ensures res == Message(C.GetRequest(bytes))
  {
    var r := new Reader(bytes);
    var h :- ReadHeader(r);
    var reservation :- r.U64();
    var key :- ReadKey(r);
    var device :- ReadDevice(r);
    var members :- ReadMembers(r);
    var payload :- r.Blob();
    var deadline :- r.S64();
    return Ok(ExecutionRequest(h.dispatch, h.epoch, h.worker, h.workerBoot, key, device, reservation, members,
                               payload, deadline));
  }

  method ReadOutcome(r: Reader) returns (res: Result<MemberOutcome>)
    requires r.Valid()
    modifies r`pos
    ensures r.Advanced(res, C.GetOutcome(old(r.Rest())))
  {
    var sequence :- r.U64();
    var kind :- r.U8();
    var generated :- r.U64();
    var token :- r.U64();
    var terminal :- r.Flag();
    var code :- r.U32();
    var text :- r.Blob();
    var retryable :- r.Flag();
    var started :- r.S64();
    var finished :- r.S64();
    var active :- r.S64();
    var delta :- r.U64();
    var after :- r.U64();
    var attempt :- r.U64();
    var generation :- r.U64();
    return Ok(MemberOutcome(sequence, kind, attempt, generation, generated, token, terminal, code, text, retryable,
                            started, finished, active, delta, after));
  }

  method ReadPreparedMember(r: Reader) returns (res: Result<PreparedMember>)
    requires r.Valid()
    modifies r`pos
    ensures r.Advanced(res, C.GetPreparedMember(old(r.Rest())))
  {
    var auth :- ReadIdentity(r);
    var proposal :- r.U64();
    var pre :- r.U64();
    var post :- r.U64();
    var delta :- r.U64();
    var before :- r.U64();
    var after :- r.U64();
    var active :- r.S64();
    var outcome :- ReadOutcome(r);
    return Ok(PreparedMember(auth, proposal, pre, post, delta, outcome, before, after, active));
  }

  method ReadPreparedMembers(r: Reader) returns (res: Result<seq<PreparedMember>>)
    requires r.Valid()
    modifies r`pos
    ensures r.Advanced(res, C.GetList(C.GetPreparedMember, old(r.Rest())))
  {
    var n :- r.U64();
    if n > C.MAX_LIST {
      return Err(ERR_PROTOCOL_INVALID_FIELD);
    }
    var out: seq<PreparedMember> := [];
    ghost var start := r.Rest();
    NothingRead(GetAll(C.GetPreparedMember, n, start));
    for i := 0 to n
      invariant r.Valid()
        && GetAll(C.GetPreparedMember, n, start) == After(out, GetAll(C.GetPreparedMember, n - i, r.Rest()))
    {
      OneMore(C.GetPreparedMember, n - i, r.Rest(), out);
      var m :- ReadPreparedMember(r);
      out := out + [m];
    }
    AllRead(C.GetPreparedMember, r.Rest(), out);
    return Ok(out);
  }

  method DecodePreparedResult(bytes: seq<byte>) returns (res: Result<PreparedDecode>)
    ensures res == Message(C.GetPrepared(bytes))
  {
    var r := new Reader(bytes);
    var h :- ReadHeader(r);
    var active :- r.S64();
    var code :- r.U32();
    var text :- r.Blob();
    var members :- ReadPreparedMembers(r);
    return Ok(PreparedDecode(h.dispatch, h.epoch, h.worker, h.workerBoot, members, active, code, text));
  }

  method ReadGrant(r: Reader) returns (res: Result<CommitGrant>)
    requires r.Valid()
    modifies r`pos
    ensures r.Advanced(res, C.GetGrant(old(r.Rest())))
  {
    var grant :- r.U64();
    var proposal :- r.U64();
    var auth :- ReadAuthority(r);
    var position :- r.U64();
    var pre :- r.U64();
    var post :- r.U64();
    var delta :- r.U64();
    var kind :- r.U8();
    var terminal :- r.Flag();
    var token :- r.U32();
    var active :- r.S64();
    return Ok(CommitGrant(grant, proposal, auth, position, pre, post, delta, kind, terminal, token, active));
  }

  method DecodeCommitGrant(bytes: seq<byte>) returns (res: Result<CommitGrant>)
    ensures res == Message(C.GetGrant(bytes))
  {
    var r := new Reader(bytes);
    res := ReadGrant(r);
  }

  method ReadReceipt(r: Reader) returns (res: Result<MemberReceipt>)
    requires r.Valid()
    modifies r`pos
    ensures r.Advanced(res, C.GetReceipt(old(r.Rest())))
  {
    var receipt :- r.U64();
    var grant :- r.U64();
    var proposal :- r.U64();
    var auth :- ReadAuthority(r);
    var before :- r.U64();
    var after :- r.U64();
    var pre :- r.U64();
    var post :- r.U64();
    var delta :- r.U64();
    var kind :- r.U8();
    var terminal :- r.Flag();
    var token :- r.U32();
    var active :- r.S64();
    var at :- r.S64();
    return Ok(MemberReceipt(receipt, grant, proposal, auth, before, after, pre, post, delta, kind, terminal, token,
                            active, at));
  }

  method ReadReceipts(r: Reader) returns (res: Result<seq<MemberReceipt>>)
    requires r.Valid()
    modifies r`pos
    ensures r.Advanced(res, C.GetList(C.GetReceipt, old(r.Rest())))
  {
    var n :- r.U64();
    if n > C.MAX_LIST {
      return Err(ERR_PROTOCOL_INVALID_FIELD);
    }
    var out: seq<MemberReceipt> := [];
    ghost var start := r.Rest();
    NothingRead(GetAll(C.GetReceipt, n, start));
    for i := 0 to n
      invariant r.Valid() && GetAll(C.GetReceipt, n, start) == After(out, GetAll(C.GetReceipt, n - i, r.Rest()))
    {
      OneMore(C.GetReceipt, n - i, r.Rest(), out);
      var m :- ReadReceipt(r);
      out := out + [m];
    }
    AllRead(C.GetReceipt, r.Rest(), out);
    return Ok(out);
  }

  method DecodeCommitReceipts(bytes: seq<byte>) returns (res: Result<ReceiptDecode>)
    ensures res == Message(C.GetReceipts(bytes))
  {
    var r := new Reader(bytes);
    var h :- ReadHeader(r);
    var code :- r.U32();
    var text :- r.Blob();
    var receipts :- ReadReceipts(r);
    return Ok(ReceiptDecode(h.dispatch, h.epoch, h.worker, h.workerBoot, receipts, code, text));
  }

  method DecodeAbortPrepared(bytes: seq<byte>) returns (res: Result<AbortPrepared>)
    ensures res == Message(C.GetAbort(bytes))
  {
    var r := new Reader(bytes);
    var proposal :- r.U64();
    var auth :- ReadIdentity(r);
    return Ok(AbortPrepared(proposal, auth));
  }
}
