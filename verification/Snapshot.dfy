/** The bytes of a snapshot: what is written for the persisted part of the fabric, and what is read back. */
module Snapshot {
  import opened Types
  import opened Lifecycle
  import opened Binary
  import C = Codec
  import F = Fabric
  import R = Recovery

  // ---------------------------------------------------------------------------
  // Lifecycle states as bytes

  function StateCode(s: SequenceState): nat {
    match s
    case Admitted => 0 case Waiting => 1 case Ready => 2 case Grouped => 3 case Reserved => 4 case Dispatched => 5
    case Running => 6 case StepCompleted => 7 case ReadyForNextToken => 8 case Yielded => 9 case Paused => 10
    case CancelRequested => 11 case Cancelled => 12 case DeadlineExpired => 13 case RetryableFailure => 14
    case NonRetryableFailure => 15 case Retrying => 16 case Completed => 17 case StaleSuperseded => 18
    case Unnamed(code) => code
  }

  function StateOf(code: nat): SequenceState {
    if code == 0 then Admitted else if code == 1 then Waiting else if code == 2 then Ready
    else if code == 3 then Grouped else if code == 4 then Reserved else if code == 5 then Dispatched
    else if code == 6 then Running else if code == 7 then StepCompleted else if code == 8 then ReadyForNextToken
    else if code == 9 then Yielded else if code == 10 then Paused else if code == 11 then CancelRequested
    else if code == 12 then Cancelled else if code == 13 then DeadlineExpired else if code == 14 then RetryableFailure
    else if code == 15 then NonRetryableFailure else if code == 16 then Retrying else if code == 17 then Completed
    else if code == 18 then StaleSuperseded else Unnamed(code)
  }

  predicate FitsStateByte(s: SequenceState) {
    s.Unnamed? ==> 18 < s.code < 256
  }

  function PutStateByte(s: SequenceState, rest: seq<byte>): (r: seq<byte>)
    ensures FitsStateByte(s) ==> GetStateByte(r) == Ok(Got(s, rest))
  {
    Put8(StateCode(s), rest)
  }

  function GetStateByte(bs: seq<byte>): Result<Got<SequenceState>> {
    var code :- Get8(bs);
    Ok(Got(StateOf(code.value), code.rest))
  }

  // ---------------------------------------------------------------------------
  // Optional records

  function PutMaybe<T>(put: (T, seq<byte>) -> seq<byte>, o: Option<T>, rest: seq<byte>): seq<byte> {
    if o.Some? then PutFlag(true, put(o.value, rest)) else PutFlag(false, rest)
  }

  function GetMaybe<T>(get: seq<byte> -> Result<Got<T>>, bs: seq<byte>): Result<Got<Option<T>>> {
    var present :- GetFlag(bs);
    if present.value then
      var x :- get(present.rest);
      Ok(Got(Some(x.value), x.rest))
    else Ok(Got(None, present.rest))
  }

  lemma LosslessMaybe<T>(put: (T, seq<byte>) -> seq<byte>, get: seq<byte> -> Result<Got<T>>, o: Option<T>,
                         rest: seq<byte>)
    requires o.Some? ==> get(put(o.value, rest)) == Ok(Got(o.value, rest))
    ensures GetMaybe(get, PutMaybe(put, o, rest)) == Ok(Got(o, rest))
  {
  }

  lemma MoreMaybe<T>(get: seq<byte> -> Result<Got<T>>, q: seq<byte>)
    requires Extensible(get)
    ensures forall b {:trigger GetMaybe(get, b + q)} :: Same(GetMaybe(get, b), GetMaybe(get, b + q), q)
  {
    forall b ensures Same(GetMaybe(get, b), GetMaybe(get, b + q), q) {
      More(q);
      if GetFlag(b).Ok? {
        assert Same(get(GetFlag(b).value.rest), get(GetFlag(b).value.rest + q), q);
      }
    }
  }

  // ---------------------------------------------------------------------------
  // The accepted-generation record

  predicate FitsAccepted(a: AcceptedGeneration) {
    && a.key < TWO64 && C.FitsAuthority(a.auth) && a.before < TWO64 && a.after < TWO64
    && a.pre < TWO64 && a.post < TWO64 && a.delta < TWO64
  }

  function PutAccepted(a: AcceptedGeneration, rest: seq<byte>): (r: seq<byte>)
    ensures FitsAccepted(a) ==> GetAccepted(r) == Ok(Got(a, rest))
  {
    Put64(a.key, C.PutAuthority(a.auth, Put64(a.before, Put64(a.after,
      C.PutDigests(C.Digests(a.pre, a.post, a.delta), PutFlag(a.terminal, PutFlag(a.promotionObserved, rest)))))))
  }

  function GetAccepted(bs: seq<byte>): Result<Got<AcceptedGeneration>> {
    var key :- Get64(bs);
    var auth :- C.GetAuthority(key.rest);
    var before :- Get64(auth.rest);
    var after :- Get64(before.rest);
    var d :- C.GetDigests(after.rest);
    var terminal :- GetFlag(d.rest);
    var observed :- GetFlag(terminal.rest);
    Ok(Got(AcceptedGeneration(key.value, auth.value, before.value, after.value, d.value.pre, d.value.post,
                              d.value.delta, terminal.value, observed.value), observed.rest))
  }

  lemma MoreAccepted()
    ensures Extensible(GetAccepted)
  {
    forall b, q ensures Same(GetAccepted(b), GetAccepted(b + q), q) {
      More(q);
      C.MoreBlocks(q);
      C.MoreAuthority(q);
    }
  }

  // ---------------------------------------------------------------------------
  // Sequences

  datatype Owner = Owner(request: nat, attempt: nat, tenant: nat, model: nat, revision: nat, promptLength: nat) {
    predicate Fits() {
      request < TWO64 && attempt < TWO64 && tenant < TWO64 && model < TWO64 && revision < TWO64 && promptLength < TWO64
    }
  }

  function PutOwner(o: Owner, rest: seq<byte>): (r: seq<byte>)
    ensures o.Fits() ==> GetOwner(r) == Ok(Got(o, rest))
  {
    Put64(o.request, Put64(o.attempt, Put64(o.tenant, Put64(o.model, Put64(o.revision, Put64(o.promptLength, rest))))))
  }

  function GetOwner(bs: seq<byte>): Result<Got<Owner>> {
    var request :- Get64(bs);
    var attempt :- Get64(request.rest);
    var tenant :- Get64(attempt.rest);
    var model :- Get64(tenant.rest);
    var revision :- Get64(model.rest);
    var prompt :- Get64(revision.rest);
    Ok(Got(Owner(request.value, attempt.value, tenant.value, model.value, revision.value, prompt.value), prompt.rest))
  }

  datatype Counts = Counts(maxGeneration: nat, budget: nat, generation: nat, generated: nat, committed: nat,
    length: nat) {
    predicate Fits() {
      && maxGeneration < TWO64 && budget < TWO64 && generation < TWO64 && generated < TWO64
      && committed < TWO64 && length < TWO64
    }
  }

  function PutCounts(c: Counts, rest: seq<byte>): (r: seq<byte>)
    ensures c.Fits() ==> GetCounts(r) == Ok(Got(c, rest))
  {
    Put64(c.maxGeneration,
      Put64(c.budget, Put64(c.generation, Put64(c.generated, Put64(c.committed, Put64(c.length, rest))))))
  }

  function GetCounts(bs: seq<byte>): Result<Got<Counts>> {
    var max :- Get64(bs);
    var budget :- Get64(max.rest);
    var generation :- Get64(budget.rest);
    var generated :- Get64(generation.rest);
    var committed :- Get64(generated.rest);
    var length :- Get64(committed.rest);
    Ok(Got(Counts(max.value, budget.value, generation.value, generated.value, committed.value, length.value),
      length.rest))
  }

  datatype Policy = Policy(deadline: int, priority: nat, latencyClass: nat, state: SequenceState) {
    predicate Fits() { Signed64(deadline) && priority < TWO32 && latencyClass < 256 && FitsStateByte(state) }
  }

  function PutPolicy(p: Policy, rest: seq<byte>): (r: seq<byte>)
    ensures p.Fits() ==> GetPolicy(r) == Ok(Got(p, rest))
  {
    PutS64(p.deadline, Put32(p.priority, Put8(p.latencyClass, PutStateByte(p.state, rest))))
  }

  function GetPolicy(bs: seq<byte>): Result<Got<Policy>> {
    var deadline :- GetS64(bs);
    var priority :- Get32(deadline.rest);
    var latency :- Get8(priority.rest);
    var state :- GetStateByte(latency.rest);
    Ok(Got(Policy(deadline.value, priority.value, latency.value, state.value), state.rest))
  }

  datatype Held = Held(id: nat, generation: nat, bytes: nat, growth: nat, tag: nat, attempts: nat) {
    predicate Fits() {
      id < TWO64 && generation < TWO64 && bytes < TWO64 && growth < TWO64 && tag < TWO64 && attempts < TWO32
    }
  }

  function PutHeld(h: Held, rest: seq<byte>): (r: seq<byte>)
    ensures h.Fits() ==> GetHeld(r) == Ok(Got(h, rest))
  {
    Put64(h.id, Put64(h.generation, Put64(h.bytes, Put64(h.growth, Put64(h.tag, Put32(h.attempts, rest))))))
  }

  function GetHeld(bs: seq<byte>): Result<Got<Held>> {
    var id :- Get64(bs);
    var generation :- Get64(id.rest);
    var held :- Get64(generation.rest);
    var growth :- Get64(held.rest);
    var tag :- Get64(growth.rest);
    var attempts :- Get32(tag.rest);
    Ok(Got(Held(id.value, generation.value, held.value, growth.value, tag.value, attempts.value), attempts.rest))
  }

  lemma MoreParts(q: seq<byte>)
    ensures forall b {:trigger GetOwner(b + q)} :: Same(GetOwner(b), GetOwner(b + q), q)
    ensures forall b {:trigger GetCounts(b + q)} :: Same(GetCounts(b), GetCounts(b + q), q)
    ensures forall b {:trigger GetPolicy(b + q)} :: Same(GetPolicy(b), GetPolicy(b + q), q)
    ensures forall b {:trigger GetHeld(b + q)} :: Same(GetHeld(b), GetHeld(b + q), q)
  {
    More(q);
  }

  datatype Entry = Entry(id: nat, saved: R.SavedSequence)

  function OwnerOf(s: R.SavedSequence): Owner {
    Owner(s.request, s.attempt, s.tenant, s.model, s.revision, s.promptLength)
  }

  function CountsOf(s: R.SavedSequence): Counts {
    Counts(s.maxGeneration, s.budgetGenerated, s.generation, s.generated, s.committed, s.currentLength)
  }

  function PolicyOf(s: R.SavedSequence): Policy {
    Policy(s.deadline, s.priority, s.latencyClass, s.state)
  }

  function HeldOf(s: R.SavedSequence): Held {
    Held(s.stateId, s.stateGeneration, s.bytesHeld, s.estimatedGrowth, s.ownerTag, s.attemptCount)
  }

  predicate FitsEntry(e: Entry) {
    && e.id < TWO64 && OwnerOf(e.saved).Fits() && CountsOf(e.saved).Fits() && PolicyOf(e.saved).Fits()
    && HeldOf(e.saved).Fits() && e.saved.digest < TWO64
    && (e.saved.accepted.Some? ==> FitsAccepted(e.saved.accepted.value))
  }

  /** Everything in front of the digest. */
  datatype Front = Front(id: nat, owner: Owner, counts: Counts, policy: Policy, held: Held) {
    predicate Fits() { id < TWO64 && owner.Fits() && counts.Fits() && policy.Fits() && held.Fits() }
  }

  function PutFront(f: Front, rest: seq<byte>): (r: seq<byte>)
    ensures f.Fits() ==> GetFront(r) == Ok(Got(f, rest))
  {
    Put64(f.id, PutOwner(f.owner, PutCounts(f.counts, PutPolicy(f.policy, PutHeld(f.held, rest)))))
  }

  function GetFront(bs: seq<byte>): Result<Got<Front>> {
    var id :- Get64(bs);
    var o :- GetOwner(id.rest);
    var c :- GetCounts(o.rest);
    var p :- GetPolicy(c.rest);
    var h :- GetHeld(p.rest);
    Ok(Got(Front(id.value, o.value, c.value, p.value, h.value), h.rest))
  }

  lemma MoreFront(q: seq<byte>)
    ensures forall b {:trigger GetFront(b + q)} :: Same(GetFront(b), GetFront(b + q), q)
  {
    More(q);
    MoreParts(q);
  }

  function FrontOf(e: Entry): Front {
    Front(e.id, OwnerOf(e.saved), CountsOf(e.saved), PolicyOf(e.saved), HeldOf(e.saved))
  }

  function PutEntry(e: Entry, rest: seq<byte>): seq<byte> {
    PutFront(FrontOf(e),
      Put64(e.saved.digest, PutFlag(e.saved.digestEstablished, PutMaybe(PutAccepted, e.saved.accepted, rest))))
  }

  function GetEntry(bs: seq<byte>): Result<Got<Entry>> {
    var f :- GetFront(bs);
    var digest :- Get64(f.rest);
    var established :- GetFlag(digest.rest);
    var accepted :- GetMaybe(GetAccepted, established.rest);
    Ok(Got(Entry(f.value.id, Assemble(f.value, digest.value, established.value, accepted.value)), accepted.rest))
  }

  function Assemble(f: Front, digest: nat, established: bool, accepted: Option<AcceptedGeneration>): R.SavedSequence {
    var o, c, p, h := f.owner, f.counts, f.policy, f.held;
    R.SavedSequence(o.request, o.attempt, o.tenant, o.model, o.revision, o.promptLength, c.maxGeneration, c.budget,
                    c.generation, c.generated, c.committed, c.length, p.deadline, p.priority, p.latencyClass, p.state,
                    h.id, h.generation, h.bytes, h.growth, h.tag, h.attempts, digest, established, accepted)
  }

  lemma LosslessEntry(e: Entry, rest: seq<byte>)
    requires FitsEntry(e)
    ensures GetEntry(PutEntry(e, rest)) == Ok(Got(e, rest))
  {
    LosslessMaybe(PutAccepted, GetAccepted, e.saved.accepted, rest);
    assert GetFront(PutEntry(e, rest)).Ok?;
  }

  lemma MoreEntry()
    ensures Extensible(GetEntry)
  {
    MoreAccepted();
    forall b, q ensures Same(GetEntry(b), GetEntry(b + q), q) {
      More(q);
      MoreFront(q);
      MoreMaybe(GetAccepted, q);
    }
  }

  // ---------------------------------------------------------------------------
  // Terminal records and the grant ledger

  datatype Record = Record(id: nat, state: SequenceState)

  predicate FitsRecord(t: Record) {
    t.id < TWO64 && FitsStateByte(t.state)
  }

  function PutRecord(t: Record, rest: seq<byte>): (r: seq<byte>)
    ensures FitsRecord(t) ==> GetRecord(r) == Ok(Got(t, rest))
  {
    Put64(t.id, PutStateByte(t.state, rest))
  }

  function GetRecord(bs: seq<byte>): Result<Got<Record>> {
    var id :- Get64(bs);
    var state :- GetStateByte(id.rest);
    Ok(Got(Record(id.value, state.value), state.rest))
  }

  lemma MoreRecord()
    ensures Extensible(GetRecord)
  {
    forall b, q ensures Same(GetRecord(b), GetRecord(b + q), q) {
      More(q);
    }
  }

  predicate FitsGrantRecord(g: F.GrantRecord) {
    && C.FitsGrant(g.grant) && g.status < TWO32 && (g.receipt.Some? ==> C.FitsReceipt(g.receipt.value))
  }

  function PutGrantRecord(g: F.GrantRecord, rest: seq<byte>): seq<byte> {
    C.PutGrant(g.grant, Put32(g.status, PutMaybe(C.PutReceipt, g.receipt, rest)))
  }

  function GetGrantRecord(bs: seq<byte>): Result<Got<F.GrantRecord>> {
    var g :- C.GetGrant(bs);
    var status :- Get32(g.rest);
    var receipt :- GetMaybe(C.GetReceipt, status.rest);
    Ok(Got(F.GrantRecord(g.value, status.value, receipt.value), receipt.rest))
  }

  lemma LosslessGrantRecord(g: F.GrantRecord, rest: seq<byte>)
    requires FitsGrantRecord(g)
    ensures GetGrantRecord(PutGrantRecord(g, rest)) == Ok(Got(g, rest))
  {
    LosslessMaybe(C.PutReceipt, C.GetReceipt, g.receipt, rest);
    assert C.GetGrant(PutGrantRecord(g, rest)).Ok?;
  }

  lemma MoreGrantRecord()
    ensures Extensible(GetGrantRecord)
  {
    C.MoreGrant();
    C.MoreReceipt();
    forall b, q ensures Same(GetGrantRecord(b), GetGrantRecord(b + q), q) {
      More(q);
      assert Same(C.GetGrant(b), C.GetGrant(b + q), q);
      MoreMaybe(C.GetReceipt, q);
    }
  }
}
