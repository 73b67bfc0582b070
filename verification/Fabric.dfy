/**
 The coordinator, on values: what each public operation of the decode fabric does to
 the fabric's state. Every operation holds one lock, so each is one atomic step.

 Hash maps are iterated in an order the program does not choose; the orders are
 inputs (`order`, `workerOrder`) and entries that are not keys are skipped. Clock
 readings and scheduling scores are inputs too.
 */
module Fabric {
  import opened Types
  import opened Lifecycle
  import G = Grouping
  import M = Memory

  // ---------------------------------------------------------------------------
  // State

  datatype DecodeRequest = DecodeRequest(
    id: nat, initialAttempt: nat, tenant: nat, model: nat, revision: nat, adapter: nat, sequence: nat,
    promptLength: nat, maxGeneration: nat, pregenerated: nat, priority: nat, tenantWeight: real,
    latencyClass: nat, deadline: int, deviceConstraint: nat, sampling: seq<byte>, state: StateDescriptor)
  {
    predicate Valid() {
      && id != NULL && sequence != NULL && tenant != NULL && model != NULL && revision != NULL
      && maxGeneration > 0 && pregenerated <= maxGeneration && tenantWeight > 0.0
    }
  }

  /** A grant issued and not yet answered, aborted or forgotten. */
  datatype Pending = Pending(grant: nat, proposal: nat)

  /** The token counters of a sequence and the digest of its last committed state. */
  datatype Tally = Tally(
    budget: TokenBudget, currentLength: nat, generated: nat, committed: nat, generation: nat,
    digest: nat, digestEstablished: bool, accepted: Option<AcceptedGeneration>)

  /** The dispatch a sequence is out on. `active` can be withdrawn while the identity stays. */
  datatype Flight = Flight(dispatch: nat, worker: nat, generation: nat, active: bool)

  datatype Sequence = Sequence(
    req: DecodeRequest,
    state: SequenceState,
    attempt: nat,
    attemptCount: nat,
    tally: Tally,
    flight: Flight,
    pending: Option<Pending>,
    reservation: nat,
    kv: StateDescriptor)

  const GRANT_PENDING: nat := 0
  const GRANT_CONSUMED: nat := 1
  const GRANT_ABORTED: nat := 2

  datatype GrantRecord = GrantRecord(grant: CommitGrant, status: nat, receipt: Option<MemberReceipt>)

  const HEALTHY: nat := 1
  const FAILED: nat := 3

  datatype Worker = Worker(
    id: nat, boot: nat, device: DeviceDescriptor, health: nat, advertised: nat, active: nat,
    models: seq<CompatibilityKey>)

  datatype Config = Config(
    limits: G.GroupLimits, headroomFloor: nat, maxAttempts: nat, preserveCommitted: bool,
    acceptKey: (Authority, nat) -> nat, keyText: CompatibilityKey -> string)

  datatype Counters = Counters(sequence: nat, dispatch: nat, grant: nat)

  datatype Stats = Stats(receiptCount: nat, decodeSteps: nat, generatedTokens: nat, tenantTokens: map<nat, nat>)

  datatype FabricState = FabricState(
    epoch: nat,
    seqs: map<nat, Sequence>,
    workers: map<nat, Worker>,
    boots: map<nat, nat>,
    terminal: map<nat, SequenceState>,
    ledger: map<nat, GrantRecord>,
    memory: M.Memory,
    next: Counters,
    stats: Stats)

  const Start: FabricState :=
    FabricState(1, map[], map[], map[], map[], map[], M.Empty, Counters(1, 1, 1), Stats(0, 0, 0, map[]))

  function Put(f: FabricState, id: nat, s: Sequence): FabricState {
    f.(seqs := f.seqs[id := s])
  }

  /** Replaces a sequence by `s` with its reservation given back. */
  function PutReleased(f: FabricState, id: nat, s: Sequence): FabricState {
    f.(seqs := f.seqs[id := s.(reservation := NULL)], memory := M.Release(f.memory, s.reservation))
  }

  // ---------------------------------------------------------------------------
  // Admission

  predicate Serves(w: Worker, req: DecodeRequest, k: CompatibilityKey) {
    && (req.deviceConstraint == NULL || w.device.id == req.deviceConstraint)
    && k.model == req.model && k.revision == req.revision && k.adapter == req.adapter
  }

  /** The first advertised key that serves a request, in the workers' iteration order. */
  function KeyAmong(w: Worker, req: DecodeRequest, ks: seq<CompatibilityKey>): Option<CompatibilityKey> {
    if ks == [] then None else if Serves(w, req, ks[0]) then Some(ks[0]) else KeyAmong(w, req, ks[1..])
  }

  function KeyFor(f: FabricState, workerOrder: seq<nat>, req: DecodeRequest): Option<CompatibilityKey> {
    if workerOrder == [] then None else
      var found := if workerOrder[0] in f.workers
                   then KeyAmong(f.workers[workerOrder[0]], req, f.workers[workerOrder[0]].models) else None;
      if found.Some? then found else KeyFor(f, workerOrder[1..], req)
  }

  function NewSequence(req: DecodeRequest): Sequence {
    var n := req.pregenerated;
    Sequence(req, MoveThrough(Admitted, Waiting, Ready),
             if req.initialAttempt != NULL then req.initialAttempt else req.id, 1,
             Tally(TokenBudget(req.maxGeneration, 0).Advance(n), req.promptLength + n, n, n, 1, 0, false, None),
             Flight(NULL, NULL, 0, false), None, NULL, req.state)
  }

  /** `admit` is the outcome of the back-pressure checks. */
  function Submit(f: FabricState, req: DecodeRequest, workerOrder: seq<nat>, admit: bool): FabricState {
    if req.Valid() && admit && KeyFor(f, workerOrder, req).Some? && req.sequence !in f.seqs
    then Put(f, req.sequence, NewSequence(req))
    else f
  }

  // ---------------------------------------------------------------------------
  // Cancellation, deadlines, retry, workers, epochs

  /** Releases, tries to end the sequence in `to`, and records `to` whether or not the move was allowed. */
  function Close(f: FabricState, id: nat, to: SequenceState): FabricState
    requires id in f.seqs
  {
    var s := f.seqs[id];
    PutReleased(f, id, s.(state := Move(s.state, to))).(terminal := f.terminal[id := to])
  }

  function Cancel(f: FabricState, id: nat): FabricState {
    if id !in f.seqs || Terminal(f.seqs[id].state) || f.seqs[id].state.CancelRequested? then f else
      var s := f.seqs[id];
      if s.state.Dispatched? || s.state.Running? || s.state.Reserved? || s.state.Grouped?
      then Put(f, id, s.(state := Move(s.state, CancelRequested)))
      else Close(f, id, Cancelled)
  }

  /** Boundary processing of one sequence: deadline first, then a requested cancellation. */
  function Settle(f: FabricState, now: int, id: nat): FabricState {
    if id !in f.seqs || Terminal(f.seqs[id].state) then f else
      var s := f.seqs[id];
      if s.req.deadline != 0 && now >= s.req.deadline then Close(f, id, DeadlineExpired)
      else if s.state.CancelRequested? then Close(f, id, Cancelled)
      else f
  }

  function Advance(f: FabricState, now: int, order: seq<nat>): FabricState {
    if order == [] then f else Settle(Advance(f, now, order[..|order| - 1]), now, order[|order| - 1])
  }

  /** A new attempt of a sequence; the committed tokens stay. */
  function Renewed(f: FabricState, s: Sequence): Sequence {
    s.(attempt := f.next.dispatch + 1000000, attemptCount := s.attemptCount + 1,
       state := MoveThrough(s.state, Retrying, Ready))
  }

  /** Starts a new attempt of `id`, or records it as failed once the attempts are used up. */
  function TryAgain(cfg: Config, f: FabricState, id: nat, named: nat): FabricState
    requires id in f.seqs
  {
    var s := f.seqs[id];
    if s.attemptCount >= cfg.maxAttempts
    then Put(f, id, s.(state := Move(s.state, NonRetryableFailure)))
         .(terminal := f.terminal[named := NonRetryableFailure])
    else Put(f, id, Renewed(f, s))
  }

  function Retry(cfg: Config, f: FabricState, id: nat): FabricState {
    if id !in f.seqs then f else
      var s := f.seqs[id];
      if !Retryable(s.state) then f else
        var s1 := if cfg.preserveCommitted then s else s.(tally := s.tally.(generated := s.tally.committed));
        TryAgain(cfg, Put(f, id, s1), id, id)
  }

  function Register(cfg: Config, f: FabricState, w: Worker): FabricState {
    if w.id == NULL || w.boot == NULL then f else
      f.(workers := f.workers[w.id := w], boots := f.boots[w.id := w.boot],
         memory := M.Advertise(f.memory, w.device.id, w.device.memoryBytes, cfg.headroomFloor))
  }

  /** Requeues one sequence whose dispatch is on a dead worker; its grant, if any, stays pending. */
  function Orphan(f: FabricState, worker: nat, id: nat): FabricState {
    if id !in f.seqs || !f.seqs[id].flight.active || f.seqs[id].flight.worker != worker then f else
      var s := f.seqs[id];
      PutReleased(f, id, s.(flight := s.flight.(active := false),
                            state := if s.state.Dispatched? || s.state.Running?
                                     then MoveThrough(s.state, StepCompleted, Waiting) else s.state))
  }

  function OrphanAll(f: FabricState, worker: nat, order: seq<nat>): FabricState {
    if order == [] then f else Orphan(OrphanAll(f, worker, order[..|order| - 1]), worker, order[|order| - 1])
  }

  function MarkWorkerDead(f: FabricState, worker: nat, order: seq<nat>): FabricState {
    var f1 := if worker in f.workers
              then f.(workers := f.workers[worker := f.workers[worker].(health := FAILED, active := 0)]) else f;
    OrphanAll(f1, worker, order)
  }

  function RollEpoch(f: FabricState): FabricState {
    f.(epoch := f.epoch + 1)
  }

  // ---------------------------------------------------------------------------
  // Scheduling

  /** The candidate a sequence gives rise to, if any; an exhausted one is recorded as completed instead. */
  function CollectOne(f: FabricState, id: nat, workerOrder: seq<nat>, score: map<nat, real>): (FabricState,
                      seq<G.Candidate>) {
    if id !in f.seqs || !Candidate(f.seqs[id].state) then (f, [])
    else if f.seqs[id].tally.budget.Exhausted() then (Close(f, id, Completed), [])
    else
      var s := f.seqs[id];
      var k := KeyFor(f, workerOrder, s.req);
      if k.None? || !k.value.Valid() then (f, [])
      else (f, [G.Candidate(id, k.value, if id in score then score[id] else 0.0, s.req.tenant, s.req.latencyClass)])
  }

  /** Collects the ready sequences. */
  function Collect(f: FabricState, order: seq<nat>, workerOrder: seq<nat>, score: map<nat, real>)
    : (FabricState, seq<G.Candidate>)
  {
    if order == [] then (f, []) else
      var (f1, cs) := Collect(f, order[..|order| - 1], workerOrder, score);
      var (f2, more) := CollectOne(f1, order[|order| - 1], workerOrder, score);
      (f2, cs + more)
  }

  /** Tries to move every listed member to a state. */
  function MoveAll(f: FabricState, members: seq<G.Candidate>, to: SequenceState): FabricState {
    if members == [] then f else
      var f1 := MoveAll(f, members[..|members| - 1], to);
      var id := members[|members| - 1].sequence;
      if id !in f1.seqs then f1 else Put(f1, id, f1.seqs[id].(state := Move(f1.seqs[id].state, to)))
  }

  function MoveGroups(f: FabricState, groups: seq<G.Group>, to: SequenceState): FabricState {
    if groups == [] then f else
      MoveAll(MoveGroups(f, groups[..|groups| - 1], to), groups[|groups| - 1].members, to)
  }

  predicate Fits(w: Worker, k: CompatibilityKey) {
    && w.health == HEALTHY
    && (exists i | 0 <= i < |w.models| ::
          w.models[i].model == k.model && w.models[i].revision == k.revision && w.models[i].device == k.device)
    && (w.advertised == 0 || w.active < w.advertised)
  }

  /** The least loaded fitting worker; the earlier one in iteration order wins a tie. */
  function Place(f: FabricState, workerOrder: seq<nat>, k: CompatibilityKey): Option<nat> {
    if workerOrder == [] then None else
      var best := Place(f, workerOrder[..|workerOrder| - 1], k);
      var w := workerOrder[|workerOrder| - 1];
      if w !in f.workers || !Fits(f.workers[w], k) then best
      else if best.None? || (best.value in f.workers && f.workers[w].active < f.workers[best.value].active)
      then Some(w) else best
  }

  function Growth(f: FabricState, members: seq<G.Candidate>): nat {
    if members == [] then 0 else
      var id := members[|members| - 1].sequence;
      var g := if id in f.seqs && f.seqs[id].kv.estimatedGrowth != 0 then f.seqs[id].kv.estimatedGrowth else 64;
      (Growth(f, members[..|members| - 1]) + g) % TWO64
  }

  function SpecOf(id: nat, s: Sequence): MemberSpec {
    MemberSpec(id, s.attempt, s.tally.generation, s.kv, s.tally.currentLength, s.tally.generated,
               s.tally.budget.Remaining(), s.req.sampling)
  }

  function Specs(f: FabricState, members: seq<G.Candidate>): seq<MemberSpec> {
    if members == [] then [] else
      var id := members[|members| - 1].sequence;
      Specs(f, members[..|members| - 1]) + (if id in f.seqs then [SpecOf(id, f.seqs[id])] else [])
  }

  /** Binds one member to the dispatch that carries it. */
  function Bind(f: FabricState, id: nat, dispatch: nat, worker: nat, reservation: nat): FabricState {
    if id !in f.seqs then f else
      var s := f.seqs[id];
      Put(f, id, s.(flight := Flight(dispatch, worker, s.tally.generation, true),
                    reservation := reservation, state := MoveThrough(s.state, Reserved, Dispatched)))
  }

  function BindAll(f: FabricState, members: seq<G.Candidate>, dispatch: nat, worker: nat,
                   reservation: nat): FabricState {
    if members == [] then f else
      Bind(BindAll(f, members[..|members| - 1], dispatch, worker, reservation),
           members[|members| - 1].sequence, dispatch, worker, reservation)
  }

  function TextBytes(t: string): seq<byte> {
    seq(|t|, i requires 0 <= i < |t| => ((t[i] as int) % 256) as bv8)
  }

  function RequestFor(cfg: Config, f: FabricState, w: Worker, g: G.Group): ExecutionRequest {
    ExecutionRequest(f.next.dispatch, f.epoch, w.id, if w.id in f.boots then f.boots[w.id] else NULL,
                     g.key, w.device, f.memory.nextReservation, Specs(f, g.members),
                     TextBytes(cfg.keyText(g.key)), 0)
  }

  /** Reserves memory for a group and takes a dispatch id for it. */
  function Booked(f: FabricState, w: Worker, g: G.Group): FabricState {
    f.(memory := M.Reserve(f.memory, w.device.id, Growth(f, g.members)),
       next := f.next.(dispatch := f.next.dispatch + 1))
  }

  /** Binds the members of a group to the dispatch that carries them. */
  function SendTo(f: FabricState, w: Worker, g: G.Group): FabricState {
    var f1 := BindAll(Booked(f, w, g), g.members, f.next.dispatch, w.id, f.memory.nextReservation);
    f1.(workers := f1.workers[w.id := w.(active := w.active + 1)])
  }

  /** Sends one group out, or puts its members back when no worker or no memory is available. */
  function DispatchGroup(cfg: Config, f: FabricState, workerOrder: seq<nat>, g: G.Group): (FabricState,
                         seq<ExecutionRequest>) {
    if g.members == [] then (f, []) else
      var chosen := Place(f, workerOrder, g.key);
      if chosen.Some? && chosen.value in f.workers
         && M.HasRoom(f.memory, f.workers[chosen.value].device.id, Growth(f, g.members))
      then (SendTo(f, f.workers[chosen.value], g), [RequestFor(cfg, f, f.workers[chosen.value], g)])
      else (MoveAll(f, g.members, Ready), [])
  }

  function DispatchAll(cfg: Config, f: FabricState, workerOrder: seq<nat>, groups: seq<G.Group>): (FabricState,
                       seq<ExecutionRequest>) {
    if groups == [] then (f, []) else
      var (f1, out) := DispatchAll(cfg, f, workerOrder, groups[..|groups| - 1]);
      var (f2, more) := DispatchGroup(cfg, f1, workerOrder, groups[|groups| - 1]);
      (f2, out + more)
  }

  function Schedule(cfg: Config, f: FabricState, now: int, order: seq<nat>, workerOrder: seq<nat>,
                    score: map<nat, real>)
    : (FabricState, seq<ExecutionRequest>)
  {
    var f1 := Advance(f, now, order);
    var (f2, cs) := Collect(f1, order, workerOrder, score);
    var groups := G.FormGroups(cfg.limits, cfg.keyText, cs);
    DispatchAll(cfg, MoveGroups(f2, groups, Grouped), workerOrder, groups)
  }

  // ---------------------------------------------------------------------------
  // Outcomes that commit nothing

  /** After a stale or conflicting result: nothing stays in flight and the sequence may be dispatched again. */
  function Reconcile(f: FabricState, id: nat): FabricState
    requires id in f.seqs
  {
    var s := f.seqs[id];
    PutReleased(f, id, s.(flight := s.flight.(active := false, dispatch := NULL), pending := None,
                          state := if s.state.Dispatched? || s.state.Running?
                                   then MoveThrough(s.state, StepCompleted, ReadyForNextToken) else s.state))
  }

  /** The in-flight dispatch is over without a commit. */
  function Landed(f: FabricState, id: nat): FabricState
    requires id in f.seqs
  {
    PutReleased(f, id, f.seqs[id].(flight := f.seqs[id].flight.(active := false, dispatch := NULL)))
  }

  /** The sequence a failed step leaves behind: recovered to its committed point if the policy says so. */
  function FailedStep(cfg: Config, s: Sequence): Sequence {
    s.(state := if s.state.Dispatched? then Move(s.state, RetryableFailure) else s.state,
       tally := if cfg.preserveCommitted || s.attemptCount >= cfg.maxAttempts then s.tally else
                  s.tally.(generated := s.tally.committed,
                           budget := AdvancedBy(TokenBudget(s.req.maxGeneration, 0), s.tally.committed)))
  }

  function RetryableOutcome(cfg: Config, f: FabricState, id: nat, named: nat): FabricState
    requires id in f.seqs
  {
    var f1 := if named in f.seqs then PutReleased(f, named, f.seqs[named]) else f;
    TryAgain(cfg, Put(f1, id, FailedStep(cfg, f1.seqs[id])), id, named)
  }

  function YieldOutcome(f: FabricState, id: nat): FabricState
    requires id in f.seqs
  {
    Put(f, id, f.seqs[id].(state := MoveThrough(f.seqs[id].state, StepCompleted, Yielded)))
  }

  function FatalOutcome(f: FabricState, id: nat, named: nat): FabricState
    requires id in f.seqs
  {
    var s := f.seqs[id];
    Put(f, id, if s.state.Dispatched? then s.(state := Move(s.state, NonRetryableFailure)) else s)
    .(terminal := f.terminal[named := NonRetryableFailure])
  }

  function EndOutcome(f: FabricState, id: nat, named: nat, to: SequenceState): FabricState
    requires id in f.seqs
  {
    if Terminal(f.seqs[id].state) then f else
      Put(f, id, f.seqs[id].(state := Move(f.seqs[id].state, to))).(terminal := f.terminal[named := to])
  }

  /** Applies a non-commit outcome to sequence `id`; the outcome names its own sequence in the records. */
  function ApplyOutcome(cfg: Config, f: FabricState, id: nat, mo: MemberOutcome): FabricState
    requires id in f.seqs
  {
    if mo.kind == YIELDED then YieldOutcome(f, id)
    else if mo.kind == RETRYABLE_FAILURE then RetryableOutcome(cfg, f, id, mo.sequence)
    else if mo.kind == NON_RETRYABLE_FAILURE then FatalOutcome(f, id, mo.sequence)
    else if mo.kind == OUTCOME_CANCELLED then EndOutcome(f, id, mo.sequence, Cancelled)
    else if mo.kind == OUTCOME_EXPIRED then EndOutcome(f, id, mo.sequence, DeadlineExpired)
    else f
  }

  predicate StaleBoot(f: FabricState, worker: nat, boot: nat) {
    worker in f.boots && f.boots[worker] != boot
  }

  /** One outcome of a bare completion: it can end, fail or requeue a sequence, never advance it. */
  function CompleteMember(cfg: Config, f: FabricState, result: ExecutionResult, mo: MemberOutcome): FabricState {
    var id := mo.sequence;
    if id !in f.seqs then f else
      var s := f.seqs[id];
      if result.epoch != f.epoch then PutReleased(f, id, s.(flight := s.flight.(active := false)))
      else if StaleBoot(f, result.worker, result.workerBoot) || mo.attempt != s.attempt
              || mo.generation != s.flight.generation || result.dispatch != s.flight.dispatch
                || Terminal(s.state) then f
      else if s.state.CancelRequested? then PutReleased(f, id, s.(flight := s.flight.(active := false)))
      else if mo.kind == STALE_AUTHORITY_REJECTED || Succeeded(mo.kind) then f
      else ApplyOutcome(cfg, Landed(f, id), id, mo)
  }

  function Complete(cfg: Config, f: FabricState, result: ExecutionResult, n: nat): FabricState
    requires n <= |result.outcomes|
  {
    if n == 0 then f else CompleteMember(cfg, Complete(cfg, f, result, n - 1), result, result.outcomes[n - 1])
  }

  // ---------------------------------------------------------------------------
  // Authorisation of prepared transitions

  datatype Reply =
    | SendGrant(grant: CommitGrant)
    | SendAbort(abort: AbortPrepared, rejected: bool)

  /** The prepared member carries the authority the fabric holds right now. */
  predicate Current(f: FabricState, pm: PreparedMember) {
    && pm.auth.sequence in f.seqs
    && var s := f.seqs[pm.auth.sequence];
    && pm.auth.epoch == f.epoch && !StaleBoot(f, pm.auth.worker, pm.auth.workerBoot)
    && pm.auth.attempt == s.attempt && pm.auth.generation == s.flight.generation
    && pm.auth.dispatch == s.flight.dispatch
    && !Terminal(s.state) && !s.state.CancelRequested?
  }

  /** A commit-eligible member whose transition extends the committed state of its sequence. */
  predicate Extends(cfg: Config, f: FabricState, pm: PreparedMember)
    requires pm.auth.sequence in f.seqs
  {
    var s := f.seqs[pm.auth.sequence];
    && !(s.tally.accepted.Some? && s.tally.accepted.value.key == cfg.acceptKey(pm.auth, pm.before))
    && s.pending.None?
    && pm.before == s.tally.generated
    && (s.tally.digestEstablished ==> pm.pre == s.tally.digest)
  }

  function GrantFor(id: nat, prepared: PreparedDecode, pm: PreparedMember): CommitGrant {
    CommitGrant(id, pm.proposal,
                pm.auth.(epoch := prepared.epoch, worker := prepared.worker, workerBoot := prepared.workerBoot),
                pm.before, pm.pre, pm.post, pm.delta,
                pm.outcome.kind, pm.outcome.terminal, pm.outcome.token % TWO32, pm.activeNs)
  }

  function Issue(f: FabricState, prepared: PreparedDecode, pm: PreparedMember): FabricState
    requires pm.auth.sequence in f.seqs
  {
    Put(f, pm.auth.sequence, f.seqs[pm.auth.sequence].(pending := Some(Pending(f.next.grant, pm.proposal))))
    .(ledger := f.ledger[f.next.grant := GrantRecord(GrantFor(f.next.grant, prepared, pm), GRANT_PENDING, None)],
      next := f.next.(grant := f.next.grant + 1))
  }

  /** A grant is issued exactly when authority is current, the step succeeded and it extends the committed state. */
  predicate Authorised(cfg: Config, f: FabricState, pm: PreparedMember) {
    Current(f, pm) && Succeeded(pm.outcome.kind) && Extends(cfg, f, pm)
  }

  function AuthoriseMember(cfg: Config, f: FabricState, prepared: PreparedDecode, pm: PreparedMember): (FabricState,
                           Reply) {
    var abort := AbortPrepared(pm.proposal, pm.auth);
    if pm.auth.sequence !in f.seqs then (f, SendAbort(abort, true))
    else if !Current(f, pm) then (Reconcile(f, pm.auth.sequence), SendAbort(abort, true))
    else if !Succeeded(pm.outcome.kind) then
      (ApplyOutcome(cfg, Landed(f, pm.auth.sequence), pm.auth.sequence, pm.outcome), SendAbort(abort, false))
    else if !Extends(cfg, f, pm) then (Reconcile(f, pm.auth.sequence), SendAbort(abort, true))
    else (Issue(f, prepared, pm), SendGrant(GrantFor(f.next.grant, prepared, pm)))
  }

  function Authorise(cfg: Config, f: FabricState, prepared: PreparedDecode, n: nat): (FabricState, seq<Reply>)
    requires n <= |prepared.members|
  {
    if n == 0 then (f, []) else
      var (f1, out) := Authorise(cfg, f, prepared, n - 1);
      var (f2, reply) := AuthoriseMember(cfg, f1, prepared, prepared.members[n - 1]);
      (f2, out + [reply])
  }

  // ---------------------------------------------------------------------------
  // Receipts

  /** The receipt answers the one grant its sequence is waiting on. */
  predicate Finalises(f: FabricState, rec: MemberReceipt) {
    && rec.grant in f.ledger
    && var gr := f.ledger[rec.grant];
    && gr.status != GRANT_CONSUMED && gr.status != GRANT_ABORTED
    && Answers(rec, gr.grant)
    && rec.auth.sequence in f.seqs
    && var s := f.seqs[rec.auth.sequence];
    && s.pending == Some(Pending(rec.grant, rec.proposal))
    && !Terminal(s.state) && !s.state.CancelRequested?
  }

  function AcceptedFrom(cfg: Config, rec: MemberReceipt): AcceptedGeneration {
    AcceptedGeneration(cfg.acceptKey(rec.auth, rec.before), rec.auth, rec.before, rec.after,
                       rec.pre, rec.post, rec.delta, rec.terminal, true)
  }

  /** One more authoritative token. */
  function Grown(cfg: Config, t: Tally, rec: MemberReceipt): Tally {
    Tally(t.budget.Advance(1), t.currentLength + 1, t.generated + 1, t.committed + 1, t.generation + 1,
          rec.post, true, Some(AcceptedFrom(cfg, rec)))
  }

  predicate Ends(t: Tally, rec: MemberReceipt) {
    rec.terminal || t.budget.Advance(1).Exhausted()
  }

  function Finalised(cfg: Config, s: Sequence, rec: MemberReceipt): Sequence {
    s.(tally := Grown(cfg, s.tally, rec),
       flight := s.flight.(active := false, dispatch := NULL),
       pending := None,
       state := MoveThrough(s.state, StepCompleted, if Ends(s.tally, rec) then Completed else ReadyForNextToken))
  }

  /** Adds without passing the 64-bit maximum. */
  function Saturating(v: nat): nat {
    if v + 1 < TWO64 then v + 1 else TWO64 - 1
  }

  function Tokens(f: FabricState, tenant: nat): nat {
    if tenant in f.stats.tenantTokens then f.stats.tenantTokens[tenant] else 0
  }

  function Count(f: FabricState, tenant: nat): Stats {
    Stats(f.stats.receiptCount + 1, f.stats.decodeSteps + 1, f.stats.generatedTokens + 1,
          f.stats.tenantTokens[tenant := Saturating(Tokens(f, tenant))])
  }

  function Finalise(cfg: Config, f: FabricState, rec: MemberReceipt): FabricState
    requires Finalises(f, rec)
  {
    var id := rec.auth.sequence;
    var s := f.seqs[id];
    PutReleased(f, id, Finalised(cfg, s, rec))
    .(ledger := f.ledger[rec.grant := f.ledger[rec.grant].(status := GRANT_CONSUMED, receipt := Some(rec))],
      terminal := if Ends(s.tally, rec) then f.terminal[id := Completed] else f.terminal,
      stats := Count(f, s.req.tenant))
  }

  /** Applies receipts in order; also lists those that finalised a generation. */
  function Receive(cfg: Config, f: FabricState, recs: seq<MemberReceipt>): (FabricState, seq<MemberReceipt>) {
    if recs == [] then (f, []) else
      var (f1, done) := Receive(cfg, f, recs[..|recs| - 1]);
      var rec := recs[|recs| - 1];
      if Finalises(f1, rec) then (Finalise(cfg, f1, rec), done + [rec]) else (f1, done)
  }

  /** Withdraws the pending grant of a sequence when the abort names its proposal. */
  function AbortPending(f: FabricState, a: AbortPrepared): FabricState {
    var id := a.auth.sequence;
    if id !in f.seqs || f.seqs[id].pending.None? || f.seqs[id].pending.value.proposal != a.proposal then f else
      var s := f.seqs[id];
      var g := s.pending.value.grant;
      PutReleased(f, id, s.(pending := None, flight := s.flight.(active := false),
                            state := if s.state.Dispatched? || s.state.Running?
                                     then MoveThrough(s.state, StepCompleted, Waiting) else s.state))
      .(ledger := if g in f.ledger && f.ledger[g].status == GRANT_PENDING
                  then f.ledger[g := f.ledger[g].(status := GRANT_ABORTED)] else f.ledger)
  }
}
