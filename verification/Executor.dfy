/** What a CPU decode executor does, on values. */
module Executor {
  // One committed state per state id and at most one tentative (prepared, not yet
  // committed) transition beside it. The floating-point recurrence is a parameter: every
  // statement holds for all choices of initial vector, step, token choice and digest.

  import opened Types

  type Vec = seq<real>

  datatype Numerics = Numerics(
    initial: (nat, nat) -> Vec,
    step: Vec -> Vec,
    token: Vec -> nat,
    digest: (Vec, nat, nat) -> nat,
    mix: (nat, nat) -> nat)

  /** Bytes of KV state added by each token. */
  const KV_STEP: nat := 64

  function Add64(a: nat, b: nat): nat {
    (a + b) % TWO64
  }

  /** A prepared transition: the tentative state and everything it is bound to. */
  datatype Tentative = Tentative(vec: Vec, kv: nat, proposal: nat, auth: Authority, pre: nat, post: nat)

  /** Where a committed state started: the state id, the attempt that seeded it and its KV bytes. */
  datatype Origin = Origin(state: nat, seed: nat, kv0: nat)

  /** `origin` is kept for the statements below; nothing in the executor reads it. */
  datatype SeqState = SeqState(
    origin: Origin, vec: Vec, tokens: nat, kv: nat, eosEnabled: bool, eosTarget: nat, tentative: Option<Tentative>)

  datatype ExecutorState = ExecutorState(
    states: map<nat, SeqState>,
    receipts: map<nat, MemberReceipt>,
    consumed: set<nat>,
    nextProposal: nat)

  const Fresh: ExecutorState := ExecutorState(map[], map[], {}, 0)

  // ---------------------------------------------------------------------------
  // Prepare

  function OriginOf(m: MemberSpec): Origin {
    Origin(m.state.id, m.attempt, m.state.bytesHeld)
  }

  function Initial(num: Numerics, m: MemberSpec): SeqState {
    SeqState(Origin(m.state.id, m.attempt, m.state.bytesHeld), num.initial(m.state.id, m.attempt), 0, m.state.bytesHeld,
             |m.payload| >= 1 && m.payload[0] & 1 != 0,
             if |m.payload| >= 2 then m.payload[1] as nat else 0,
             None)
  }

  function Advance(num: Numerics, st: SeqState): SeqState {
    st.(vec := num.step(st.vec), tokens := st.tokens + 1, kv := Add64(st.kv, KV_STEP))
  }

  /** Steps a lagging committed state forward to the coordinator's token count. */
  function CatchUp(num: Numerics, st: SeqState, target: nat): SeqState
    decreases target - st.tokens
  {
    if st.tokens < target then CatchUp(num, Advance(num, st), target) else st
  }

  /** The committed state a member is prepared from. */
  function Adopt(num: Numerics, e: ExecutorState, m: MemberSpec): SeqState {
    CatchUp(num, if m.state.id in e.states then e.states[m.state.id] else Initial(num, m), m.generatedTokens)
  }

  /** An unresolved transition of the same attempt refuses a further prepare. */
  predicate Blocked(st: SeqState, m: MemberSpec) {
    st.tentative.Some? && st.tentative.value.auth.attempt == m.attempt
  }

  function AuthorityOf(req: ExecutionRequest, m: MemberSpec): Authority {
    Authority(req.epoch, req.worker, req.workerBoot, m.sequence, m.state.id,
              m.attempt, m.generation, req.dispatch)
  }

  function Stage(num: Numerics, st: SeqState, req: ExecutionRequest, m: MemberSpec, proposal: nat): Tentative {
    var next := num.step(st.vec);
    var kv := Add64(st.kv, KV_STEP);
    Tentative(next, kv, proposal, AuthorityOf(req, m),
              num.digest(st.vec, st.tokens, st.kv), num.digest(next, st.tokens + 1, kv))
  }

  predicate LastToken(st: SeqState, m: MemberSpec, token: nat) {
    || (st.eosEnabled && token == st.eosTarget)
    || m.generatedTokens + 1 >= m.generatedTokens + m.remainingBudget
  }

  function Report(num: Numerics, st: SeqState, m: MemberSpec, t: Tentative, ns: int): PreparedMember {
    var token := num.token(t.vec);
    var last := LastToken(st, m, token);
    PreparedMember(t.auth, t.proposal, t.pre, t.post, num.mix(t.pre, t.post),
                   MemberOutcome(m.sequence, if last then STEP_SUCCESS_TERMINAL else STEP_SUCCESS_CONTINUE,
                                 m.attempt, m.generation, 1, token, last, ERR_OK, [], false,
                                 0, ns, ns, KV_STEP, t.kv),
                   st.tokens, st.tokens + 1, ns)
  }

  function PrepareMember(num: Numerics, e: ExecutorState, req: ExecutionRequest, m: MemberSpec, ns: int)
    : (ExecutorState, Result<PreparedMember>)
  {
    var st := Adopt(num, e, m);
    if Blocked(st, m) then
      (e.(states := e.states[m.state.id := st]),
       Err(if st.tentative.value.auth.generation == m.generation
           then ERR_DUPLICATE_COMPLETION else ERR_TRANSACTION_CONFLICT))
    else
      var t := Stage(num, st, req, m, e.nextProposal + 1);
      (e.(states := e.states[m.state.id := st.(tentative := Some(t))], nextProposal := e.nextProposal + 1),
       Ok(Report(num, st, m, t, ns)))
  }

  /** Prepares the first `n` members in order; the first failure ends the group. */
  function PrepareUpTo(num: Numerics, e: ExecutorState, req: ExecutionRequest, n: nat, ns: MemberSpec -> int)
    : (ExecutorState, Result<seq<PreparedMember>>)
    requires n <= |req.members|
  {
    if n == 0 then (e, Ok([])) else
      var (e1, done) := PrepareUpTo(num, e, req, n - 1, ns);
      if done.Err? then (e1, done) else
        var m := req.members[n - 1];
        var (e2, r) := PrepareMember(num, e1, req, m, ns(m));
        (e2, if r.Ok? then Ok(done.value + [r.value]) else Err(r.error))
  }

  function TotalNs(ms: seq<PreparedMember>): int {
    if ms == [] then 0 else TotalNs(ms[..|ms| - 1]) + ms[|ms| - 1].activeNs
  }

  function Prepare(num: Numerics, e: ExecutorState, req: ExecutionRequest, ns: MemberSpec -> int)
    : (ExecutorState, Result<PreparedDecode>)
  {
    var (e1, r) := PrepareUpTo(num, e, req, |req.members|, ns);
    (e1, if r.Err? then Err(r.error) else
           Ok(PreparedDecode(req.dispatch, req.epoch, req.worker, req.workerBoot, r.value,
                             TotalNs(r.value), ERR_OK, [])))
  }

  // ---------------------------------------------------------------------------
  // Commit and abort

  /** The grant names exactly the staged transition and the committed position. */
  predicate Matches(st: SeqState, g: CommitGrant) {
    && st.tentative.Some?
    && var t := st.tentative.value;
    && t.proposal == g.proposal && t.auth == g.auth
    && t.pre == g.pre && t.post == g.post
    && st.tokens == g.position
  }

  function Promote(st: SeqState): SeqState
    requires st.tentative.Some?
  {
    st.(vec := st.tentative.value.vec, tokens := st.tokens + 1, kv := st.tentative.value.kv, tentative := None)
  }

  /** A commit of `g` promotes, rather than replaying a receipt or failing. */
  predicate Promotes(e: ExecutorState, g: CommitGrant) {
    g.grant !in e.receipts && g.auth.state in e.states && Matches(e.states[g.auth.state], g)
  }

  function ReceiptFor(g: CommitGrant): MemberReceipt {
    MemberReceipt(g.grant, g.grant, g.proposal, g.auth, g.position, g.position + 1,
                  g.pre, g.post, g.delta, g.kind, g.terminal, g.token, g.activeNs, 0)
  }

  function CommitError(e: ExecutorState, g: CommitGrant): nat
    requires g.grant !in e.receipts && !Promotes(e, g)
  {
    if g.auth.state !in e.states || e.states[g.auth.state].tentative.None? then ERR_UNKNOWN_STATE else
      var t := e.states[g.auth.state].tentative.value;
      if t.proposal != g.proposal || t.auth != g.auth then ERR_SUPERSEDED_BY_RETRY
      else if t.pre != g.pre || t.post != g.post then ERR_STATE_DIGEST_MISMATCH
      else ERR_INVALID_ARGUMENT
  }

  function Commit(e: ExecutorState, g: CommitGrant): (ExecutorState, Result<MemberReceipt>) {
    if g.grant in e.receipts then
      (e, if Answers(e.receipts[g.grant], g) then Ok(e.receipts[g.grant]) else Err(ERR_DUPLICATE_COMPLETION))
    else if Promotes(e, g) then
      var rec := ReceiptFor(g);
      (e.(states := e.states[g.auth.state := Promote(e.states[g.auth.state])],
          consumed := e.consumed + {g.proposal},
          receipts := e.receipts[g.grant := rec]),
       Ok(rec))
    else
      (e, Err(CommitError(e, g)))
  }

  function Abort(e: ExecutorState, a: AbortPrepared): (ExecutorState, Result<()>) {
    if a.proposal in e.consumed then (e, Err(ERR_ALREADY_TERMINAL))
    else if a.auth.state in e.states && e.states[a.auth.state].tentative.Some?
            && e.states[a.auth.state].tentative.value.proposal == a.proposal then
      (e.(states := e.states[a.auth.state := e.states[a.auth.state].(tentative := None)]), Ok(()))
    else (e, Ok(()))
  }

  // ---------------------------------------------------------------------------
  // The pure recurrence an executor is meant to follow

  function OrbitVec(num: Numerics, o: Origin, n: nat): Vec {
    if n == 0 then num.initial(o.state, o.seed) else num.step(OrbitVec(num, o, n - 1))
  }

  function OrbitKv(o: Origin, n: nat): nat {
    if n == 0 then o.kv0 else Add64(OrbitKv(o, n - 1), KV_STEP)
  }

  function OrbitDigest(num: Numerics, o: Origin, n: nat): nat {
    num.digest(OrbitVec(num, o, n), n, OrbitKv(o, n))
  }

  /** The recurrence in closed form on the KV side. */
  lemma {:induction false} OrbitKvClosed(o: Origin, n: nat)
    requires o.kv0 < TWO64
    ensures OrbitKv(o, n) == (o.kv0 + 64 * n) % TWO64
  {
    if n > 0 {
      OrbitKvClosed(o, n - 1);
      var a, m := o.kv0 + KV_STEP * (n - 1), TWO64;
      assert a == m * (a / m) + a % m;
      var b := a % m + KV_STEP;
      assert a + KV_STEP == m * (a / m) + b;
      assert b < 2 * m;
      if b < m {
        DivUnique(a + KV_STEP, m, a / m, b);
        DivUnique(b, m, 0, b);
      } else {
        DivUnique(a + KV_STEP, m, a / m + 1, b - m);
        DivUnique(b, m, 1, b - m);
      }
    }
  }

  lemma DivUnique(x: int, m: int, q: int, r: int)
    requires m == TWO64 && 0 <= r < m && x == m * q + r
    ensures x % m == r
  {
  }

  /** The tentative transition was computed at token position `q` of the recurrence. */
  predicate StagedAt(num: Numerics, o: Origin, t: Tentative, q: nat) {
    && t.vec == OrbitVec(num, o, q + 1) && t.kv == OrbitKv(o, q + 1)
    && t.pre == OrbitDigest(num, o, q) && t.post == OrbitDigest(num, o, q + 1)
  }

  /** The committed state is the recurrence, run for exactly the committed number of tokens. */
  predicate OnOrbit(num: Numerics, st: SeqState) {
    st.vec == OrbitVec(num, st.origin, st.tokens) && st.kv == OrbitKv(st.origin, st.tokens)
  }

  function CommittedDigest(num: Numerics, st: SeqState): nat {
    num.digest(st.vec, st.tokens, st.kv)
  }

  lemma {:induction false} CatchUpKeepsOrigin(num: Numerics, st: SeqState, target: nat)
    ensures CatchUp(num, st, target).origin == st.origin
    decreases target - st.tokens
  {
    if st.tokens < target {
      CatchUpKeepsOrigin(num, Advance(num, st), target);
    }
  }

  lemma {:induction false} CatchUpFollowsOrbit(num: Numerics, st: SeqState, target: nat)
    requires OnOrbit(num, st)
    ensures var r := CatchUp(num, st, target);
      && OnOrbit(num, r) && r.origin == st.origin && r.tentative == st.tentative
      && r.tokens == (if st.tokens < target then target else st.tokens)
    decreases target - st.tokens
  {
    if st.tokens < target {
      CatchUpFollowsOrbit(num, Advance(num, st), target);
    }
  }

  /** What a prepared member reports is one step of the recurrence, and it is what was staged. */
  lemma StageFollowsOrbit(num: Numerics, st: SeqState, req: ExecutionRequest, m: MemberSpec, p: nat, ns: int)
    requires OnOrbit(num, st)
    ensures StagedAt(num, st.origin, Stage(num, st, req, m, p), st.tokens)
    ensures Report(num, st, m, Stage(num, st, req, m, p), ns).outcome.token
         == num.token(OrbitVec(num, st.origin, st.tokens + 1))
  {
  }
}
