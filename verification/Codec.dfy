/** The messages of the transactional protocol on the wire. */
module Codec {
  // Each record has an encoder that writes its fields in order and a decoder that reads
  // them back; they are written separately and related by the lemmas at the end.

  import opened Types
  import opened Binary

  // ---------------------------------------------------------------------------
  // Identities

  predicate FitsAuthority(a: Authority) {
    && a.epoch < TWO64 && a.worker < TWO64 && a.workerBoot < TWO64 && a.sequence < TWO64
    && a.state < TWO64 && a.attempt < TWO64 && a.generation < TWO64 && a.dispatch < TWO64
  }

  /** Epoch first, as grants and receipts carry it. */
  function PutAuthority(a: Authority, rest: seq<byte>): (r: seq<byte>)
    ensures FitsAuthority(a) ==> GetAuthority(r) == Ok(Got(a, rest))
  {
    Put64(a.epoch, Put64(a.worker, Put64(a.workerBoot, Put64(a.sequence, Put64(a.state,
      Put64(a.attempt, Put64(a.generation, Put64(a.dispatch, rest))))))))
  }

  function GetAuthority(bs: seq<byte>): Result<Got<Authority>> {
    var epoch :- Get64(bs);
    var worker :- Get64(epoch.rest);
    var boot :- Get64(worker.rest);
    var sequence :- Get64(boot.rest);
    var state :- Get64(sequence.rest);
    var attempt :- Get64(state.rest);
    var generation :- Get64(attempt.rest);
    var dispatch :- Get64(generation.rest);
    Ok(Got(Authority(epoch.value, worker.value, boot.value, sequence.value, state.value, attempt.value,
                     generation.value, dispatch.value), dispatch.rest))
  }

  lemma MoreAuthority(q: seq<byte>)
    ensures forall b {:trigger GetAuthority(b + q)} :: Same(GetAuthority(b), GetAuthority(b + q), q)
  {
    More(q);
  }

  /** Sequence first, as prepared members and aborts carry it. */
  function PutIdentity(a: Authority, rest: seq<byte>): (r: seq<byte>)
    ensures FitsAuthority(a) ==> GetIdentity(r) == Ok(Got(a, rest))
  {
    Put64(a.sequence, Put64(a.state, Put64(a.attempt, Put64(a.generation, Put64(a.dispatch,
      Put64(a.epoch, Put64(a.worker, Put64(a.workerBoot, rest))))))))
  }

  function GetIdentity(bs: seq<byte>): Result<Got<Authority>> {
    var sequence :- Get64(bs);
    var state :- Get64(sequence.rest);
    var attempt :- Get64(state.rest);
    var generation :- Get64(attempt.rest);
    var dispatch :- Get64(generation.rest);
    var epoch :- Get64(dispatch.rest);
    var worker :- Get64(epoch.rest);
    var boot :- Get64(worker.rest);
    Ok(Got(Authority(epoch.value, worker.value, boot.value, sequence.value, state.value, attempt.value,
                     generation.value, dispatch.value), boot.rest))
  }

  lemma MoreIdentity(q: seq<byte>)
    ensures forall b {:trigger GetIdentity(b + q)} :: Same(GetIdentity(b), GetIdentity(b + q), q)
  {
    More(q);
  }

  // ---------------------------------------------------------------------------
  // Blocks of fields that several messages share

  datatype Header = Header(dispatch: nat, epoch: nat, worker: nat, workerBoot: nat) {
    predicate Fits() { dispatch < TWO64 && epoch < TWO64 && worker < TWO64 && workerBoot < TWO64 }
  }

  function PutHeader(h: Header, rest: seq<byte>): (r: seq<byte>)
    ensures h.Fits() ==> GetHeader(r) == Ok(Got(h, rest))
  {
    Put64(h.dispatch, Put64(h.epoch, Put64(h.worker, Put64(h.workerBoot, rest))))
  }

  function GetHeader(bs: seq<byte>): Result<Got<Header>> {
    var dispatch :- Get64(bs);
    var epoch :- Get64(dispatch.rest);
    var worker :- Get64(epoch.rest);
    var boot :- Get64(worker.rest);
    Ok(Got(Header(dispatch.value, epoch.value, worker.value, boot.value), boot.rest))
  }

  datatype Digests = Digests(pre: nat, post: nat, delta: nat) {
    predicate Fits() { pre < TWO64 && post < TWO64 && delta < TWO64 }
  }

  function PutDigests(d: Digests, rest: seq<byte>): (r: seq<byte>)
    ensures d.Fits() ==> GetDigests(r) == Ok(Got(d, rest))
  {
    Put64(d.pre, Put64(d.post, Put64(d.delta, rest)))
  }

  function GetDigests(bs: seq<byte>): Result<Got<Digests>> {
    var pre :- Get64(bs);
    var post :- Get64(pre.rest);
    var delta :- Get64(post.rest);
    Ok(Got(Digests(pre.value, post.value, delta.value), delta.rest))
  }

  datatype Step = Step(kind: nat, terminal: bool, token: nat, activeNs: int) {
    predicate Fits() { kind < 256 && token < TWO32 && Signed64(activeNs) }
  }

  function PutStep(s: Step, rest: seq<byte>): (r: seq<byte>)
    ensures s.Fits() ==> GetStep(r) == Ok(Got(s, rest))
  {
    Put8(s.kind, PutFlag(s.terminal, Put32(s.token, PutS64(s.activeNs, rest))))
  }

  function GetStep(bs: seq<byte>): Result<Got<Step>> {
    var kind :- Get8(bs);
    var terminal :- GetFlag(kind.rest);
    var token :- Get32(terminal.rest);
    var active :- GetS64(token.rest);
    Ok(Got(Step(kind.value, terminal.value, token.value, active.value), active.rest))
  }

  datatype Clocks = Clocks(started: int, finished: int, active: int) {
    predicate Fits() { Signed64(started) && Signed64(finished) && Signed64(active) }
  }

  function PutClocks(c: Clocks, rest: seq<byte>): (r: seq<byte>)
    ensures c.Fits() ==> GetClocks(r) == Ok(Got(c, rest))
  {
    PutS64(c.started, PutS64(c.finished, PutS64(c.active, rest)))
  }

  function GetClocks(bs: seq<byte>): Result<Got<Clocks>> {
    var started :- GetS64(bs);
    var finished :- GetS64(started.rest);
    var active :- GetS64(finished.rest);
    Ok(Got(Clocks(started.value, finished.value, active.value), active.rest))
  }

  lemma MoreBlocks(q: seq<byte>)
    ensures forall b {:trigger GetHeader(b + q)} :: Same(GetHeader(b), GetHeader(b + q), q)
    ensures forall b {:trigger GetDigests(b + q)} :: Same(GetDigests(b), GetDigests(b + q), q)
    ensures forall b {:trigger GetStep(b + q)} :: Same(GetStep(b), GetStep(b + q), q)
    ensures forall b {:trigger GetClocks(b + q)} :: Same(GetClocks(b), GetClocks(b + q), q)
  {
    More(q);
  }

  // ---------------------------------------------------------------------------
  // ExecuteRequest

  predicate FitsState(s: StateDescriptor) {
    && s.id < TWO64 && s.generation < TWO64 && s.device < TWO64 && s.bytesHeld < TWO64
    && s.estimatedGrowth < TWO64 && s.ownerTag < TWO64 && s.accessVersion < TWO64
  }

  function PutState(s: StateDescriptor, rest: seq<byte>): (r: seq<byte>)
    ensures FitsState(s) ==> GetState(r) == Ok(Got(s, rest))
  {
    Put64(s.id, Put64(s.generation, Put64(s.device, Put64(s.bytesHeld, Put64(s.estimatedGrowth,
      Put64(s.ownerTag, Put64(s.accessVersion, rest)))))))
  }

  function GetState(bs: seq<byte>): Result<Got<StateDescriptor>> {
    var id :- Get64(bs);
    var generation :- Get64(id.rest);
    var device :- Get64(generation.rest);
    var held :- Get64(device.rest);
    var growth :- Get64(held.rest);
    var tag :- Get64(growth.rest);
    var version :- Get64(tag.rest);
    Ok(Got(StateDescriptor(id.value, generation.value, device.value, held.value, growth.value, tag.value,
                           version.value), version.rest))
  }

  lemma MoreState(q: seq<byte>)
    ensures forall b {:trigger GetState(b + q)} :: Same(GetState(b), GetState(b + q), q)
  {
    More(q);
  }

  predicate FitsKey(k: CompatibilityKey) {
    && k.model < TWO64 && k.revision < TWO64 && k.adapter < TWO64 && k.backend < 256 && k.device < TWO64
    && k.dtype < 256 && k.tensorLayout < TWO32 && k.kvRepresentation < TWO32
    && k.sequenceRequirements < TWO32 && k.operatorPolicy < TWO32
  }

  function PutKey(k: CompatibilityKey, rest: seq<byte>): (r: seq<byte>)
    ensures FitsKey(k) ==> GetKey(r) == Ok(Got(k, rest))
  {
    Put64(k.model, Put64(k.revision, Put64(k.adapter, Put8(k.backend, Put64(k.device, Put8(k.dtype,
      Put32(k.tensorLayout, Put32(k.kvRepresentation, Put32(k.sequenceRequirements,
        Put32(k.operatorPolicy, rest))))))))))
  }

  function GetKey(bs: seq<byte>): Result<Got<CompatibilityKey>> {
    var model :- Get64(bs);
    var revision :- Get64(model.rest);
    var adapter :- Get64(revision.rest);
    var backend :- Get8(adapter.rest);
    var device :- Get64(backend.rest);
    var dtype :- Get8(device.rest);
    var layout :- Get32(dtype.rest);
    var kv :- Get32(layout.rest);
    var requirements :- Get32(kv.rest);
    var policy :- Get32(requirements.rest);
    Ok(Got(CompatibilityKey(model.value, revision.value, adapter.value, backend.value, device.value, dtype.value,
                            layout.value, kv.value, requirements.value, policy.value), policy.rest))
  }

  lemma MoreKey(q: seq<byte>)
    ensures forall b {:trigger GetKey(b + q)} :: Same(GetKey(b), GetKey(b + q), q)
  {
    More(q);
  }

  predicate FitsDevice(d: DeviceDescriptor) {
    && d.id < TWO64 && d.backend < 256 && |d.name| <= MAX_BLOB && d.computeMajor < TWO32 && d.computeMinor < TWO32
    && d.memoryBytes < TWO64 && d.supportedDtypes < TWO32 && d.maxGroups < TWO32
  }

  function PutDevice(d: DeviceDescriptor, rest: seq<byte>): (r: seq<byte>)
    ensures FitsDevice(d) ==> GetDevice(r) == Ok(Got(d, rest))
  {
    Put64(d.id, Put8(d.backend, PutBlob(d.name, Put32(d.computeMajor, Put32(d.computeMinor,
      Put64(d.memoryBytes, Put32(d.supportedDtypes, Put32(d.maxGroups, rest))))))))
  }

  function GetDevice(bs: seq<byte>): Result<Got<DeviceDescriptor>> {
    var id :- Get64(bs);
    var backend :- Get8(id.rest);
    var name :- GetBlob(backend.rest);
    var major :- Get32(name.rest);
    var minor :- Get32(major.rest);
    var memory :- Get64(minor.rest);
    var dtypes :- Get32(memory.rest);
    var groups :- Get32(dtypes.rest);
    Ok(Got(DeviceDescriptor(id.value, backend.value, name.value, major.value, minor.value, memory.value,
                            dtypes.value, groups.value), groups.rest))
  }

  lemma MoreDevice(q: seq<byte>)
    ensures forall b {:trigger GetDevice(b + q)} :: Same(GetDevice(b), GetDevice(b + q), q)
  {
    More(q);
  }

  predicate FitsMember(m: MemberSpec) {
    && m.sequence < TWO64 && m.attempt < TWO64 && m.generation < TWO64 && FitsState(m.state)
    && m.currentLength < TWO64 && m.generatedTokens < TWO64 && m.remainingBudget < TWO64 && |m.payload| <= MAX_BLOB
  }

  function PutMember(m: MemberSpec, rest: seq<byte>): (r: seq<byte>)
    ensures FitsMember(m) ==> GetMember(r) == Ok(Got(m, rest))
  {
    Put64(m.sequence, Put64(m.attempt, Put64(m.generation, PutState(m.state, Put64(m.currentLength,
      Put64(m.generatedTokens, Put64(m.remainingBudget, PutBlob(m.payload, rest))))))))
  }

  function GetMember(bs: seq<byte>): Result<Got<MemberSpec>> {
    var sequence :- Get64(bs);
    var attempt :- Get64(sequence.rest);
    var generation :- Get64(attempt.rest);
    var state :- GetState(generation.rest);
    var length :- Get64(state.rest);
    var tokens :- Get64(length.rest);
    var budget :- Get64(tokens.rest);
    var payload :- GetBlob(budget.rest);
    Ok(Got(MemberSpec(sequence.value, attempt.value, generation.value, state.value, length.value, tokens.value,
                      budget.value, payload.value), payload.rest))
  }

  lemma MoreMember()
    ensures Extensible(GetMember)
  {
    forall b, q ensures Same(GetMember(b), GetMember(b + q), q) {
      More(q);
      MoreState(q);
    }
  }

  /** The largest list a message may carry. */
  const MAX_LIST: nat := 0x4_0000

  function PutList<T>(put: (T, seq<byte>) -> seq<byte>, xs: seq<T>, rest: seq<byte>): seq<byte> {
    Put64(|xs|, PutAll(put, xs, rest))
  }

  function GetList<T>(get: seq<byte> -> Result<Got<T>>, bs: seq<byte>): Result<Got<seq<T>>> {
    var n :- Get64(bs);
    if n.value > MAX_LIST then Err(ERR_PROTOCOL_INVALID_FIELD) else GetAll(get, n.value, n.rest)
  }

  lemma LosslessList<T>(put: (T, seq<byte>) -> seq<byte>, get: seq<byte> -> Result<Got<T>>, xs: seq<T>, rest: seq<byte>)
    requires |xs| <= MAX_LIST && forall x, r | x in xs :: get(put(x, r)) == Ok(Got(x, r))
    ensures GetList(get, PutList(put, xs, rest)) == Ok(Got(xs, rest))
  {
    LosslessAll(put, get, xs, rest);
  }

  lemma MoreList<T>(get: seq<byte> -> Result<Got<T>>, q: seq<byte>)
    requires Extensible(get)
    ensures forall b {:trigger GetList(get, b + q)} :: Same(GetList(get, b), GetList(get, b + q), q)
  {
    forall b ensures Same(GetList(get, b), GetList(get, b + q), q) {
      More(q);
      if Get64(b).Ok? {
        MoreAll(get, Get64(b).value.value, Get64(b).value.rest, q);
      }
    }
  }

  predicate FitsRequest(r: ExecutionRequest) {
    && r.dispatch < TWO64 && r.epoch < TWO64 && r.worker < TWO64 && r.workerBoot < TWO64 && r.reservation < TWO64
    && FitsKey(r.key) && FitsDevice(r.device)
    && |r.members| <= MAX_LIST && (forall m | m in r.members :: FitsMember(m))
    && |r.groupPayload| <= MAX_BLOB && Signed64(r.deadlineHint)
  }

  /** Everything before the member list. */
  datatype Placement = Placement(header: Header, reservation: nat, key: CompatibilityKey, device: DeviceDescriptor) {
    predicate Fits() { header.Fits() && reservation < TWO64 && FitsKey(key) && FitsDevice(device) }
  }

  function PutPlacement(p: Placement, rest: seq<byte>): (r: seq<byte>)
    ensures p.Fits() ==> GetPlacement(r) == Ok(Got(p, rest))
  {
    PutHeader(p.header, Put64(p.reservation, PutKey(p.key, PutDevice(p.device, rest))))
  }

  function GetPlacement(bs: seq<byte>): Result<Got<Placement>> {
    var header :- GetHeader(bs);
    var reservation :- Get64(header.rest);
    var key :- GetKey(reservation.rest);
    var device :- GetDevice(key.rest);
    Ok(Got(Placement(header.value, reservation.value, key.value, device.value), device.rest))
  }

  lemma MorePlacement(q: seq<byte>)
    ensures forall b {:trigger GetPlacement(b + q)} :: Same(GetPlacement(b), GetPlacement(b + q), q)
  {
    More(q);
    MoreBlocks(q);
    MoreKey(q);
    MoreDevice(q);
  }

  function PutRequest(q: ExecutionRequest, rest: seq<byte>): seq<byte> {
    PutPlacement(Placement(Header(q.dispatch, q.epoch, q.worker, q.workerBoot), q.reservation, q.key, q.device),
      PutList(PutMember, q.members, PutBlob(q.groupPayload, PutS64(q.deadlineHint, rest))))
  }

  function GetRequest(bs: seq<byte>): Result<Got<ExecutionRequest>> {
    var p :- GetPlacement(bs);
    var members :- GetList(GetMember, p.rest);
    var payload :- GetBlob(members.rest);
    var deadline :- GetS64(payload.rest);
    var h := p.value.header;
    Ok(Got(ExecutionRequest(h.dispatch, h.epoch, h.worker, h.workerBoot, p.value.key, p.value.device,
                            p.value.reservation, members.value, payload.value, deadline.value), deadline.rest))
  }

  lemma LosslessMembers(ms: seq<MemberSpec>, rest: seq<byte>)
    requires |ms| <= MAX_LIST && forall m | m in ms :: FitsMember(m)
    ensures GetList(GetMember, PutList(PutMember, ms, rest)) == Ok(Got(ms, rest))
  {
    LosslessList(PutMember, GetMember, ms, rest);
  }

  lemma LosslessRequest(m: ExecutionRequest, rest: seq<byte>)
    requires FitsRequest(m)
    ensures GetRequest(PutRequest(m, rest)) == Ok(Got(m, rest))
  {
    var p := Placement(Header(m.dispatch, m.epoch, m.worker, m.workerBoot), m.reservation, m.key, m.device);
    var tail := PutBlob(m.groupPayload, PutS64(m.deadlineHint, rest));
    LosslessMembers(m.members, tail);
    assert GetPlacement(PutRequest(m, rest)) == Ok(Got(p, PutList(PutMember, m.members, tail)));
  }

  lemma MoreRequest()
    ensures Extensible(GetRequest)
  {
    MoreMember();
    forall b, q ensures Same(GetRequest(b), GetRequest(b + q), q) {
      More(q);
      MorePlacement(q);
      MoreList(GetMember, q);
    }
  }

  // ---------------------------------------------------------------------------
  // PreparedResult

  predicate FitsOutcome(o: MemberOutcome) {
    && o.sequence < TWO64 && o.kind < 256 && o.generated < TWO64 && o.token < TWO64 && o.errorCode < TWO32
    && |o.errorText| <= MAX_BLOB && Signed64(o.startedAt) && Signed64(o.finishedAt) && Signed64(o.activeNs)
    && o.kvDelta < TWO64 && o.kvAfter < TWO64 && o.attempt < TWO64 && o.generation < TWO64
  }

  function PutOutcome(o: MemberOutcome, rest: seq<byte>): (r: seq<byte>)
    ensures FitsOutcome(o) ==> GetOutcome(r) == Ok(Got(o, rest))
  {
    Put64(o.sequence, Put8(o.kind, Put64(o.generated, Put64(o.token, PutFlag(o.terminal, Put32(o.errorCode,
      PutBlob(o.errorText, PutFlag(o.retryable, PutClocks(Clocks(o.startedAt, o.finishedAt, o.activeNs),
        Put64(o.kvDelta, Put64(o.kvAfter, Put64(o.attempt, Put64(o.generation, rest)))))))))))))
  }

  function GetOutcome(bs: seq<byte>): Result<Got<MemberOutcome>> {
    var sequence :- Get64(bs);
    var kind :- Get8(sequence.rest);
    var generated :- Get64(kind.rest);
    var token :- Get64(generated.rest);
    var terminal :- GetFlag(token.rest);
    var code :- Get32(terminal.rest);
    var text :- GetBlob(code.rest);
    var retryable :- GetFlag(text.rest);
    var clocks :- GetClocks(retryable.rest);
    var delta :- Get64(clocks.rest);
    var after :- Get64(delta.rest);
    var attempt :- Get64(after.rest);
    var generation :- Get64(attempt.rest);
    Ok(Got(MemberOutcome(sequence.value, kind.value, attempt.value, generation.value, generated.value, token.value,
                         terminal.value, code.value, text.value, retryable.value,
                         clocks.value.started, clocks.value.finished, clocks.value.active, delta.value, after.value),
           generation.rest))
  }

  lemma MoreOutcome(q: seq<byte>)
    ensures forall b {:trigger GetOutcome(b + q)} :: Same(GetOutcome(b), GetOutcome(b + q), q)
  {
    More(q);
    MoreBlocks(q);
  }

  predicate FitsPreparedMember(p: PreparedMember) {
    && FitsAuthority(p.auth) && p.proposal < TWO64 && p.pre < TWO64 && p.post < TWO64 && p.delta < TWO64
    && p.before < TWO64 && p.after < TWO64 && Signed64(p.activeNs) && FitsOutcome(p.outcome)
  }

  function PutPreparedMember(p: PreparedMember, rest: seq<byte>): (r: seq<byte>)
    ensures FitsPreparedMember(p) ==> GetPreparedMember(r) == Ok(Got(p, rest))
  {
    PutIdentity(p.auth, Put64(p.proposal, PutDigests(Digests(p.pre, p.post, p.delta),
      Put64(p.before, Put64(p.after, PutS64(p.activeNs, PutOutcome(p.outcome, rest)))))))
  }

  function GetPreparedMember(bs: seq<byte>): Result<Got<PreparedMember>> {
    var auth :- GetIdentity(bs);
    var proposal :- Get64(auth.rest);
    var d :- GetDigests(proposal.rest);
    var before :- Get64(d.rest);
    var after :- Get64(before.rest);
    var active :- GetS64(after.rest);
    var outcome :- GetOutcome(active.rest);
    Ok(Got(PreparedMember(auth.value, proposal.value, d.value.pre, d.value.post, d.value.delta, outcome.value,
                          before.value, after.value, active.value), outcome.rest))
  }

  lemma MorePreparedMember()
    ensures Extensible(GetPreparedMember)
  {
    forall b, q ensures Same(GetPreparedMember(b), GetPreparedMember(b + q), q) {
      More(q);
      MoreBlocks(q);
      MoreIdentity(q);
      MoreOutcome(q);
    }
  }

  predicate FitsPrepared(p: PreparedDecode) {
    && p.dispatch < TWO64 && p.epoch < TWO64 && p.worker < TWO64 && p.workerBoot < TWO64 && Signed64(p.activeNs)
    && p.groupError < TWO32 && |p.groupErrorText| <= MAX_BLOB
    && |p.members| <= MAX_LIST && (forall m | m in p.members :: FitsPreparedMember(m))
  }

  function PutPrepared(p: PreparedDecode, rest: seq<byte>): seq<byte> {
    PutHeader(Header(p.dispatch, p.epoch, p.worker, p.workerBoot), PutS64(p.activeNs, Put32(p.groupError,
      PutBlob(p.groupErrorText, PutList(PutPreparedMember, p.members, rest)))))
  }

  function GetPrepared(bs: seq<byte>): Result<Got<PreparedDecode>> {
    var h :- GetHeader(bs);
    var active :- GetS64(h.rest);
    var code :- Get32(active.rest);
    var text :- GetBlob(code.rest);
    var members :- GetList(GetPreparedMember, text.rest);
    Ok(Got(PreparedDecode(h.value.dispatch, h.value.epoch, h.value.worker, h.value.workerBoot, members.value,
      active.value,
                          code.value, text.value), members.rest))
  }

  lemma LosslessPrepared(m: PreparedDecode, rest: seq<byte>)
    requires FitsPrepared(m)
    ensures GetPrepared(PutPrepared(m, rest)) == Ok(Got(m, rest))
  {
    LosslessList(PutPreparedMember, GetPreparedMember, m.members, rest);
  }

  lemma MorePrepared()
    ensures Extensible(GetPrepared)
  {
    MorePreparedMember();
    forall b, q ensures Same(GetPrepared(b), GetPrepared(b + q), q) {
      More(q);
      MoreBlocks(q);
      MoreList(GetPreparedMember, q);
    }
  }

  // ---------------------------------------------------------------------------
  // CommitGrant

  predicate FitsGrant(g: CommitGrant) {
    && g.grant < TWO64 && g.proposal < TWO64 && FitsAuthority(g.auth) && g.position < TWO64
    && g.pre < TWO64 && g.post < TWO64 && g.delta < TWO64 && g.kind < 256 && g.token < TWO32 && Signed64(g.activeNs)
  }

  function PutGrant(g: CommitGrant, rest: seq<byte>): (r: seq<byte>)
    ensures FitsGrant(g) ==> GetGrant(r) == Ok(Got(g, rest))
  {
    Put64(g.grant, Put64(g.proposal, PutAuthority(g.auth, Put64(g.position,
      PutDigests(Digests(g.pre, g.post, g.delta), PutStep(Step(g.kind, g.terminal, g.token, g.activeNs), rest))))))
  }

  function GetGrant(bs: seq<byte>): Result<Got<CommitGrant>> {
    var grant :- Get64(bs);
    var proposal :- Get64(grant.rest);
    var auth :- GetAuthority(proposal.rest);
    var position :- Get64(auth.rest);
    var d :- GetDigests(position.rest);
    var s :- GetStep(d.rest);
    Ok(Got(CommitGrant(grant.value, proposal.value, auth.value, position.value, d.value.pre, d.value.post,
      d.value.delta,
                       s.value.kind, s.value.terminal, s.value.token, s.value.activeNs), s.rest))
  }

  lemma MoreGrant()
    ensures Extensible(GetGrant)
  {
    forall b, q ensures Same(GetGrant(b), GetGrant(b + q), q) {
      More(q);
      MoreBlocks(q);
      MoreAuthority(q);
    }
  }

  // ---------------------------------------------------------------------------
  // CommitReceipt

  predicate FitsReceipt(r: MemberReceipt) {
    && r.receipt < TWO64 && r.grant < TWO64 && r.proposal < TWO64 && FitsAuthority(r.auth)
    && r.before < TWO64 && r.after < TWO64 && r.pre < TWO64 && r.post < TWO64 && r.delta < TWO64
    && r.kind < 256 && r.token < TWO32 && Signed64(r.activeNs) && Signed64(r.committedAt)
  }

  function PutReceipt(m: MemberReceipt, rest: seq<byte>): (r: seq<byte>)
    ensures FitsReceipt(m) ==> GetReceipt(r) == Ok(Got(m, rest))
  {
    Put64(m.receipt, Put64(m.grant, Put64(m.proposal, PutAuthority(m.auth, Put64(m.before, Put64(m.after,
      PutDigests(Digests(m.pre, m.post, m.delta), PutStep(Step(m.kind, m.terminal, m.token, m.activeNs),
        PutS64(m.committedAt, rest)))))))))
  }

  function GetReceipt(bs: seq<byte>): Result<Got<MemberReceipt>> {
    var receipt :- Get64(bs);
    var grant :- Get64(receipt.rest);
    var proposal :- Get64(grant.rest);
    var auth :- GetAuthority(proposal.rest);
    var before :- Get64(auth.rest);
    var after :- Get64(before.rest);
    var d :- GetDigests(after.rest);
    var s :- GetStep(d.rest);
    var at :- GetS64(s.rest);
    Ok(Got(MemberReceipt(receipt.value, grant.value, proposal.value, auth.value, before.value, after.value, d.value.pre,
                         d.value.post, d.value.delta, s.value.kind, s.value.terminal, s.value.token, s.value.activeNs,
                         at.value), at.rest))
  }

  lemma MoreReceipt()
    ensures Extensible(GetReceipt)
  {
    forall b, q ensures Same(GetReceipt(b), GetReceipt(b + q), q) {
      More(q);
      MoreBlocks(q);
      MoreAuthority(q);
    }
  }

  predicate FitsReceipts(p: ReceiptDecode) {
    && p.dispatch < TWO64 && p.epoch < TWO64 && p.worker < TWO64 && p.workerBoot < TWO64
    && p.groupError < TWO32 && |p.groupErrorText| <= MAX_BLOB
    && |p.receipts| <= MAX_LIST && (forall m | m in p.receipts :: FitsReceipt(m))
  }

  function PutReceipts(p: ReceiptDecode, rest: seq<byte>): seq<byte> {
    PutHeader(Header(p.dispatch, p.epoch, p.worker, p.workerBoot), Put32(p.groupError,
      PutBlob(p.groupErrorText, PutList(PutReceipt, p.receipts, rest))))
  }

  function GetReceipts(bs: seq<byte>): Result<Got<ReceiptDecode>> {
    var h :- GetHeader(bs);
    var code :- Get32(h.rest);
    var text :- GetBlob(code.rest);
    var receipts :- GetList(GetReceipt, text.rest);
    Ok(Got(ReceiptDecode(h.value.dispatch, h.value.epoch, h.value.worker, h.value.workerBoot, receipts.value,
      code.value,
                         text.value), receipts.rest))
  }

  lemma LosslessReceipts(m: ReceiptDecode, rest: seq<byte>)
    requires FitsReceipts(m)
    ensures GetReceipts(PutReceipts(m, rest)) == Ok(Got(m, rest))
  {
    LosslessList(PutReceipt, GetReceipt, m.receipts, rest);
  }

  lemma MoreReceipts()
    ensures Extensible(GetReceipts)
  {
    MoreReceipt();
    forall b, q ensures Same(GetReceipts(b), GetReceipts(b + q), q) {
      More(q);
      MoreBlocks(q);
      MoreList(GetReceipt, q);
    }
  }

  // ---------------------------------------------------------------------------
  // AbortPrepared

  function PutAbort(a: AbortPrepared, rest: seq<byte>): (r: seq<byte>)
    ensures a.proposal < TWO64 && FitsAuthority(a.auth) ==> GetAbort(r) == Ok(Got(a, rest))
  {
    Put64(a.proposal, PutIdentity(a.auth, rest))
  }

  function GetAbort(bs: seq<byte>): Result<Got<AbortPrepared>> {
    var proposal :- Get64(bs);
    var auth :- GetIdentity(proposal.rest);
    Ok(Got(AbortPrepared(proposal.value, auth.value), auth.rest))
  }

  lemma MoreAbort()
    ensures Extensible(GetAbort)
  {
    forall b, q ensures Same(GetAbort(b), GetAbort(b + q), q) {
      More(q);
      MoreIdentity(q);
    }
  }

  // ---------------------------------------------------------------------------
  // Messages: encoded bytes followed by anything decode to the message, and no strict prefix decodes

  lemma ExecuteRequestExact(m: ExecutionRequest, q: seq<byte>, p: seq<byte>)
    requires FitsRequest(m)
    ensures Message(GetRequest(PutRequest(m, []) + q)) == Ok(m)
    ensures p < PutRequest(m, []) ==> Message(GetRequest(p)).Err?
  {
    LosslessRequest(m, []);
    MoreRequest();
    Exact(GetRequest, PutRequest(m, []), m, q, p);
  }

  lemma PreparedResultExact(m: PreparedDecode, q: seq<byte>, p: seq<byte>)
    requires FitsPrepared(m)
    ensures Message(GetPrepared(PutPrepared(m, []) + q)) == Ok(m)
    ensures p < PutPrepared(m, []) ==> Message(GetPrepared(p)).Err?
  {
    LosslessPrepared(m, []);
    MorePrepared();
    Exact(GetPrepared, PutPrepared(m, []), m, q, p);
  }

  lemma CommitGrantExact(m: CommitGrant, q: seq<byte>, p: seq<byte>)
    requires FitsGrant(m)
    ensures Message(GetGrant(PutGrant(m, []) + q)) == Ok(m)
    ensures p < PutGrant(m, []) ==> Message(GetGrant(p)).Err?
  {
    MoreGrant();
    Exact(GetGrant, PutGrant(m, []), m, q, p);
  }

  lemma CommitReceiptExact(m: ReceiptDecode, q: seq<byte>, p: seq<byte>)
    requires FitsReceipts(m)
    ensures Message(GetReceipts(PutReceipts(m, []) + q)) == Ok(m)
    ensures p < PutReceipts(m, []) ==> Message(GetReceipts(p)).Err?
  {
    LosslessReceipts(m, []);
    MoreReceipts();
    Exact(GetReceipts, PutReceipts(m, []), m, q, p);
  }

  lemma AbortPreparedExact(m: AbortPrepared, q: seq<byte>, p: seq<byte>)
    requires m.proposal < TWO64 && FitsAuthority(m.auth)
    ensures Message(GetAbort(PutAbort(m, []) + q)) == Ok(m)
    ensures p < PutAbort(m, []) ==> Message(GetAbort(p)).Err?
  {
    MoreAbort();
    Exact(GetAbort, PutAbort(m, []), m, q, p);
  }
}
