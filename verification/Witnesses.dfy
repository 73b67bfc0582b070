/**
 Inputs at which the program does less than it says: a cancellation, an end, a device, an
 adapter or a state that is reported or asked for and then missed. Most of them are runs of
 the network from its start.
 */
module Witnesses {
  import opened Types
  import opened Lifecycle
  import opened Fabric
  import G = Grouping
  import K = KeyText
  import M = Memory
  import P = Placement
  import N = Network
  import O = Operations
  import E = Executor

  // ---------------------------------------------------------------------------
  // A cancellation that is reported and stops nothing

  /** The report of a retryable failure that the coordinator takes as current. */
  predicate ReportsFailure(f: FabricState, id: nat, result: ExecutionResult) {
    && id in f.seqs && |result.outcomes| == 1
    && var s, mo := f.seqs[id], result.outcomes[0];
    && result.epoch == f.epoch && !StaleBoot(f, result.worker, result.workerBoot)
      && result.dispatch == s.flight.dispatch
    && mo.sequence == id && mo.kind == RETRYABLE_FAILURE && mo.attempt == s.attempt
      && mo.generation == s.flight.generation
  }

  /** Failed for good on the record and still open in its state. */
  predicate FailedOpen(f: FabricState, id: nat) {
    id in f.seqs && f.seqs[id].state.RetryableFailure? && id in f.terminal && f.terminal[id] == NonRetryableFailure
  }

  /** A report of failure with no attempt left records the end and stays short of it. */
  lemma FailureStaysOpen(cfg: Config, f: FabricState, id: nat, result: ExecutionResult) returns (f': FabricState)
    requires ReportsFailure(f, id, result) && f.seqs[id].state.Dispatched? && f.seqs[id].attemptCount >= cfg.maxAttempts
    ensures f' == Complete(cfg, f, result, 1) && FailedOpen(f', id)
  {
    f' := Complete(cfg, f, result, 1);
    var f1 := Landed(f, id);
    assert Complete(cfg, f, result, 0) == f;
    assert Complete(cfg, f, result, 1) == ApplyOutcome(cfg, f1, id, result.outcomes[0]);
    assert ApplyOutcome(cfg, f1, id, result.outcomes[0]) == RetryableOutcome(cfg, f1, id, id);
    FailureTries(cfg, f1, id);
  }

  lemma FailureTries(cfg: Config, f: FabricState, id: nat)
    requires id in f.seqs && f.seqs[id].state.Dispatched? && f.seqs[id].attemptCount >= cfg.maxAttempts
    ensures FailedOpen(RetryableOutcome(cfg, f, id, id), id)
  {
  }

  predicate RecordedOnly(f: FabricState, id: nat) {
    id in f.seqs && !Stopped(f.seqs[id].state) && id in f.terminal && f.terminal[id] == Cancelled
  }

  /** A cancellation then changes the record, and not the state. */
  lemma CancelPassesBy(f: FabricState, id: nat) returns (f': FabricState)
    requires FailedOpen(f, id)
    ensures f' == Cancel(f, id) && RecordedOnly(f', id)
  {
    f' := Cancel(f, id);
  }

  // ---------------------------------------------------------------------------
  // A run that gets there

  const KEY: CompatibilityKey := CompatibilityKey(1, 1, 0, 0, 1, 1, 0, 0, 0, 0)

  function WorkerOn(id: nat, k: CompatibilityKey): Worker {
    Worker(id, 1, DeviceDescriptor(id, 0, [], 0, 0, 1024, 0, 0), HEALTHY, 0, 0, [k])
  }

  function RequestOn(id: nat, device: nat): DecodeRequest {
    DecodeRequest(id, NULL, 1, 1, 1, 0, id, 0, 8, 0, 0, 1.0, 0, 0, device, [], StateDescriptor(id, 0, 0, 0, 0, 0, 0))
  }

  function Failure(id: nat, w: nat): ExecutionResult {
    ExecutionResult(1, 1, w, 1,
      [MemberOutcome(id, RETRYABLE_FAILURE, id, 1, 0, 0, false, ERR_OK, [], true, 0, 0, 0, 0, 0)])
  }

  /** One ready sequence, one worker that serves it and has room. */
  ghost predicate Startable(f: FabricState, id: nat, w: nat) {
    && id in f.seqs && f.seqs[id].state.Ready? && !f.seqs[id].tally.budget.Exhausted() && f.seqs[id].req.deadline == 0
    && w in f.workers && f.workers[w].health == HEALTHY && f.workers[w].advertised == 0 && |f.workers[w].models| == 1
    && var k := f.workers[w].models[0];
    && k.Valid() && Serves(f.workers[w], f.seqs[id].req, k)
    && forall growth | 0 <= growth <= 64 :: M.HasRoom(f.memory, f.workers[w].device.id, growth)
  }

  function CandidateOf(f: FabricState, id: nat, k: CompatibilityKey): G.Candidate
    requires id in f.seqs
  {
    G.Candidate(id, k, 0.0, f.seqs[id].req.tenant, f.seqs[id].req.latencyClass)
  }

  lemma SoleCandidate(f: FabricState, id: nat, w: nat)
    requires Startable(f, id, w)
    ensures Advance(f, 0, [id]) == f
    ensures Collect(f, [id], [w], map[]) == (f, [CandidateOf(f, id, f.workers[w].models[0])])
  {
    assert [id][..0] == [];
    assert Advance(f, 0, []) == f;
    assert Collect(f, [], [w], map[]) == (f, []);
    var k := f.workers[w].models;
    assert KeyAmong(f.workers[w], f.seqs[id].req, k) == Some(k[0]);
    assert KeyFor(f, [w], f.seqs[id].req) == Some(k[0]);
    var c := CandidateOf(f, id, k[0]);
    assert CollectOne(f, id, [w], map[]) == (f, [c]);
    assert [] + [c] == [c];
  }

  lemma SoleGroup(lim: G.GroupLimits, text: CompatibilityKey -> string, c: G.Candidate)
    requires lim == G.GroupLimits(8, 0, G.BULK)
    ensures G.FormGroups(lim, text, [c]) == [G.Group(c.key, [c])]
  {
    assert [c][..0] == [];
    assert G.Sort([]) == [] && G.Sort([c]) == [c];
    assert G.Pack(lim, text, []) == [];
  }

  /** A sequence out on dispatch `d`, otherwise as it was. */
  predicate OutAs(s: Sequence, t: Sequence, d: nat) {
    && t.state.Dispatched? && t.flight.dispatch == d && t.flight.generation == s.tally.generation
    && t.attempt == s.attempt && t.attemptCount == s.attemptCount
  }

  lemma SoleDispatch(cfg: Config, f: FabricState, id: nat, w: nat) returns (f': FabricState)
    requires cfg.limits == G.GroupLimits(8, 0, G.BULK) && Startable(f, id, w) && f.seqs[id].kv.estimatedGrowth == 0
    ensures f' == Schedule(cfg, f, 0, [id], [w], map[]).0
    ensures f'.epoch == f.epoch && f'.boots == f.boots && id in f'.seqs
      && OutAs(f.seqs[id], f'.seqs[id], f.next.dispatch)
  {
    f' := Schedule(cfg, f, 0, [id], [w], map[]).0;
    var k := f.workers[w].models[0];
    var c := CandidateOf(f, id, k);
    SoleCandidate(f, id, w);
    SoleGroup(cfg.limits, cfg.keyText, c);
    SolePass(cfg, f, c, w);
  }

  lemma SolePass(cfg: Config, f: FabricState, c: G.Candidate, w: nat)
    requires Startable(f, c.sequence, w) && c.key == f.workers[w].models[0]
      && f.seqs[c.sequence].kv.estimatedGrowth == 0
    ensures var g := [G.Group(c.key, [c])]; var f' := DispatchAll(cfg, MoveGroups(f, g, Grouped), [w], g).0;
      && f'.epoch == f.epoch && f'.boots == f.boots
      && c.sequence in f'.seqs && OutAs(f.seqs[c.sequence], f'.seqs[c.sequence], f.next.dispatch)
  {
    var id, g := c.sequence, G.Group(c.key, [c]);
    assert [g][..0] == [] && [c][..0] == [] && [w][..0] == [];
    var f1 := Put(f, id, f.seqs[id].(state := Grouped));
    assert MoveAll(f, [], Grouped) == f && MoveAll(f, [c], Grouped) == f1;
    assert MoveGroups(f, [], Grouped) == f && MoveGroups(f, [g], Grouped) == f1;
    assert DispatchAll(cfg, f1, [w], []) == (f1, []);
    assert Place(f1, [], c.key) == None && Place(f1, [w], c.key) == Some(w);
    assert Growth(f1, []) == 0 && Growth(f1, [c]) == 64;
    SoleSend(f1, f1.workers[w], g, id);
  }

  lemma SoleSend(f: FabricState, w: Worker, g: G.Group, id: nat)
    requires id in f.seqs && f.seqs[id].state.Grouped? && |g.members| == 1 && g.members[0].sequence == id
    ensures var f' := SendTo(f, w, g);
      && f'.epoch == f.epoch && f'.boots == f.boots && id in f'.seqs && OutAs(f.seqs[id], f'.seqs[id], f.next.dispatch)
  {
    var f1 := Booked(f, w, g);
    assert g.members[..0] == [];
    assert BindAll(f1, [], f.next.dispatch, w.id, f.memory.nextReservation) == f1;
  }

  function Admission(cfg: Config, id: nat, w: nat): FabricState {
    Submit(Register(cfg, Start, WorkerOn(w, KEY)), RequestOn(id, NULL), [w], true)
  }

  function AdmissionRun(id: nat, w: nat): seq<N.Action> {
    [N.Local(O.Register(WorkerOn(w, KEY))), N.Local(O.Submit(RequestOn(id, NULL), [w], true))]
  }

  /** A worker registers, a sequence is admitted and sent out, and its only attempt fails. */
  function FailingRun(id: nat, w: nat): seq<N.Action> {
    AdmissionRun(id, w) + [N.Schedule(0, [id], [w], map[])] + [N.Local(O.Complete(Failure(id, w)))]
  }

  lemma LocalNext(cfg: Config, num: E.Numerics, actions: seq<N.Action>, op: O.Operation)
    ensures N.Run(cfg, num, actions + [N.Local(op)]).fabric == O.Operate(cfg, N.Run(cfg, num, actions).fabric, op)
  {
    assert (actions + [N.Local(op)])[..|actions|] == actions;
  }

  lemma ScheduleNext(cfg: Config, num: E.Numerics, actions: seq<N.Action>, order: seq<nat>, workerOrder: seq<nat>)
    ensures N.Run(cfg, num, actions + [N.Schedule(0, order, workerOrder, map[])]).fabric
         == Schedule(cfg, N.Run(cfg, num, actions).fabric, 0, order, workerOrder, map[]).0
  {
    assert (actions + [N.Schedule(0, order, workerOrder, map[])])[..|actions|] == actions;
  }

  lemma AdmittedStartable(cfg: Config, id: nat, w: nat) returns (f: FabricState)
    requires cfg.headroomFloor == 0 && id != NULL && w != NULL
    ensures f == Admission(cfg, id, w)
    ensures Startable(f, id, w) && f.seqs[id] == NewSequence(RequestOn(id, NULL))
    ensures w in f.boots && f.boots[w] == 1 && f.epoch == 1 && f.next.dispatch == 1
  {
    var f1 := Register(cfg, Start, WorkerOn(w, KEY));
    assert KeyAmong(f1.workers[w], RequestOn(id, NULL), [KEY]) == Some(KEY);
    assert KeyFor(f1, [w], RequestOn(id, NULL)) == Some(KEY);
    f := Submit(f1, RequestOn(id, NULL), [w], true);
  }

  lemma FailureFits(f: FabricState, id: nat, w: nat)
    requires id in f.seqs && f.seqs[id].flight.dispatch == 1 && f.seqs[id].flight.generation == 1
      && f.seqs[id].attempt == id
    requires w in f.boots && f.boots[w] == 1 && f.epoch == 1
    ensures ReportsFailure(f, id, Failure(id, w))
  {
    assert Failure(id, w).outcomes[0].sequence == id;
  }

  lemma SentOut(cfg: Config, f: FabricState, id: nat, w: nat) returns (f': FabricState)
    requires cfg.limits == G.GroupLimits(8, 0, G.BULK) && Startable(f, id, w)
      && f.seqs[id] == NewSequence(RequestOn(id, NULL))
    requires w in f.boots && f.boots[w] == 1 && f.epoch == 1 && f.next.dispatch == 1
    ensures f' == Schedule(cfg, f, 0, [id], [w], map[]).0
    ensures ReportsFailure(f', id, Failure(id, w)) && f'.seqs[id].state.Dispatched? && f'.seqs[id].attemptCount == 1
  {
    assert f.seqs[id].attempt == id && f.seqs[id].attemptCount == 1 && f.seqs[id].tally.generation == 1;
    f' := SoleDispatch(cfg, f, id, w);
    FailureFits(f', id, w);
  }

  lemma AdmissionFabric(cfg: Config, num: E.Numerics, id: nat, w: nat)
    ensures N.Run(cfg, num, AdmissionRun(id, w)).fabric == Admission(cfg, id, w)
  {
    var run := AdmissionRun(id, w);
    LocalNext(cfg, num, [], run[0].op);
    LocalNext(cfg, num, [run[0]], run[1].op);
    assert [] + [run[0]] == [run[0]] && [run[0]] + [run[1]] == run;
  }

  lemma FailingRunFabric(cfg: Config, num: E.Numerics, id: nat, w: nat)
    ensures N.Run(cfg, num, FailingRun(id, w)).fabric
         == Complete(cfg, Schedule(cfg, Admission(cfg, id, w), 0, [id], [w], map[]).0, Failure(id, w), 1)
  {
    AdmissionFabric(cfg, num, id, w);
    ScheduleNext(cfg, num, AdmissionRun(id, w), [id], [w]);
    LocalNext(cfg, num, AdmissionRun(id, w) + [N.Schedule(0, [id], [w], map[])], O.Complete(Failure(id, w)));
  }

  lemma FailingSteps(cfg: Config, id: nat, w: nat) returns (f: FabricState, f': FabricState)
    requires cfg.limits == G.GroupLimits(8, 0, G.BULK) && cfg.maxAttempts <= 1 && cfg.headroomFloor == 0
    requires id != NULL && w != NULL
    ensures f == Complete(cfg, Schedule(cfg, Admission(cfg, id, w), 0, [id], [w], map[]).0, Failure(id, w), 1)
    ensures FailedOpen(f, id) && f' == Cancel(f, id) && RecordedOnly(f', id)
  {
    var f1 := AdmittedStartable(cfg, id, w);
    var f2 := SentOut(cfg, f1, id, w);
    f := FailureStaysOpen(cfg, f2, id, Failure(id, w));
    f' := CancelPassesBy(f, id);
  }

  /** A run after which a sequence has failed on the record only; a cancellation is reported and stops nothing. */
  lemma CancelMissed(cfg: Config, num: E.Numerics, id: nat, w: nat) returns (f: FabricState, f': FabricState)
    requires cfg.limits == G.GroupLimits(8, 0, G.BULK) && cfg.maxAttempts <= 1 && cfg.headroomFloor == 0
    requires id != NULL && w != NULL
    ensures f == N.Run(cfg, num, FailingRun(id, w)).fabric && FailedOpen(f, id)
    ensures f' == Cancel(f, id) && RecordedOnly(f', id)
  {
    FailingRunFabric(cfg, num, id, w);
    f, f' := FailingSteps(cfg, id, w);
  }

  // ---------------------------------------------------------------------------
  // A group that mixes keys, and a device constraint that is passed by

  /** A ready sequence that asks for the device of worker `w`, which advertises key `k`. */
  predicate Asks(f: FabricState, id: nat, w: nat, k: CompatibilityKey) {
    && id in f.seqs && f.seqs[id].state.Ready? && !f.seqs[id].tally.budget.Exhausted()
    && w in f.workers && f.workers[w].models == [k] && k.Valid()
    && f.seqs[id].req.deviceConstraint == f.workers[w].device.id != NULL
    && k.model == f.seqs[id].req.model && k.revision == f.seqs[id].req.revision && k.adapter == f.seqs[id].req.adapter
  }

  /** Two workers on different devices whose keys differ only in backends that have no name. */
  predicate TwoDevices(f: FabricState, a: nat, b: nat, u: nat, v: nat, k: CompatibilityKey) {
    && a < b && Asks(f, a, u, k.(backend := 2)) && Asks(f, b, v, k.(backend := 3))
    && f.workers[u].device.id != f.workers[v].device.id
    && f.workers[u].health == HEALTHY && f.workers[u].advertised == 0 && f.workers[u].active <= f.workers[v].active
  }

  lemma KeyOfFirst(f: FabricState, id: nat, u: nat, v: nat, k: CompatibilityKey)
    requires Asks(f, id, u, k)
    ensures KeyFor(f, [u, v], f.seqs[id].req) == Some(k)
  {
    assert KeyAmong(f.workers[u], f.seqs[id].req, [k]) == Some(k);
  }

  lemma KeyOfSecond(f: FabricState, id: nat, u: nat, v: nat, k: CompatibilityKey)
    requires Asks(f, id, v, k) && u in f.workers && |f.workers[u].models| == 1
    requires f.workers[u].device.id != f.workers[v].device.id
    ensures KeyFor(f, [u, v], f.seqs[id].req) == Some(k)
  {
    var req, ks := f.seqs[id].req, f.workers[u].models;
    assert ks[1..] == [] && KeyAmong(f.workers[u], req, []) == None;
    assert KeyAmong(f.workers[u], req, ks) == None;
    assert [u, v][1..] == [v];
    assert KeyAmong(f.workers[v], req, [k]) == Some(k);
    assert KeyFor(f, [v], req) == Some(k);
  }

  lemma BothCollected(f: FabricState, a: nat, b: nat, u: nat, v: nat, k: CompatibilityKey)
    requires TwoDevices(f, a, b, u, v, k)
    ensures Collect(f, [a, b], [u, v], map[])
         == (f, [CandidateOf(f, a, k.(backend := 2)), CandidateOf(f, b, k.(backend := 3))])
  {
    KeyOfFirst(f, a, u, v, k.(backend := 2));
    KeyOfSecond(f, b, u, v, k.(backend := 3));
    var ca, cb := CandidateOf(f, a, k.(backend := 2)), CandidateOf(f, b, k.(backend := 3));
    assert [a, b][..1] == [a] && [a][..0] == [];
    assert Collect(f, [], [u, v], map[]) == (f, []);
    assert CollectOne(f, a, [u, v], map[]) == (f, [ca]) && CollectOne(f, b, [u, v], map[]) == (f, [cb]);
    assert [] + [ca] == [ca] && [ca] + [cb] == [ca, cb];
    assert Collect(f, [a], [u, v], map[]) == (f, [ca]);
  }

  /**
   Two sequences that ask for different devices are collected with different keys, end up in
   one group, and that group goes to the worker of the first one.
   */
  lemma MixedDispatch(lim: G.GroupLimits, f: FabricState, a: nat, b: nat, u: nat, v: nat, k: CompatibilityKey)
    requires lim == G.GroupLimits(8, 0, G.BULK) && TwoDevices(f, a, b, u, v, k)
    ensures var ca, cb := CandidateOf(f, a, k.(backend := 2)), CandidateOf(f, b, k.(backend := 3));
      && ca.key != cb.key && G.FormGroups(lim, K.KeyText, Collect(f, [a, b], [u, v], map[]).1)
        == [G.Group(ca.key, [ca, cb])]
      && Place(f, [u, v], ca.key) == Some(u) && f.seqs[b].req.deviceConstraint != f.workers[u].device.id
  {
    var ca, cb := CandidateOf(f, a, k.(backend := 2)), CandidateOf(f, b, k.(backend := 3));
    BothCollected(f, a, b, u, v, k);
    K.MixedGroup(lim, ca, cb);
    FirstPlaced(f, u, v, ca.key);
  }

  lemma FirstPlaced(f: FabricState, u: nat, v: nat, k: CompatibilityKey)
    requires u in f.workers && f.workers[u].models == [k] && f.workers[u].health == HEALTHY
      && f.workers[u].advertised == 0
    requires v in f.workers && f.workers[u].active <= f.workers[v].active
    ensures Place(f, [u, v], k) == Some(u)
  {
    assert [u, v][..1] == [u] && [u][..0] == [];
    assert Fits(f.workers[u], k) by { assert f.workers[u].models[0] == k; }
    assert Place(f, [], k) == None && Place(f, [u], k) == Some(u);
  }

  // ---------------------------------------------------------------------------
  // A device and an adapter that are passed by

  /** A worker with one key, no load and no limit on it. */
  predicate Free(w: Worker) {
    w.health == HEALTHY && w.advertised == 0 && w.active == 0 && |w.models| == 1
  }

  /** A ready sequence, a worker `v` that serves it, and a worker `u` that offers a twin of the key and does not. */
  predicate TwoOffers(f: FabricState, id: nat, u: nat, v: nat) {
    && id in f.seqs && f.seqs[id].state.Ready? && !f.seqs[id].tally.budget.Exhausted() && f.seqs[id].req.deadline == 0
    && f.seqs[id].kv.estimatedGrowth == 0
    && u in f.workers && v in f.workers && Free(f.workers[u]) && Free(f.workers[v])
    && f.workers[v].models[0].Valid() && P.Twins(f.workers[u].models[0], f.workers[v].models[0])
    && Serves(f.workers[v], f.seqs[id].req, f.workers[v].models[0])
    && !Serves(f.workers[u], f.seqs[id].req, f.workers[u].models[0])
    && M.HasRoom(f.memory, f.workers[u].device.id, 64)
  }

  lemma SecondServes(f: FabricState, id: nat, u: nat, v: nat) returns (c: G.Candidate)
    requires TwoOffers(f, id, u, v)
    ensures c == CandidateOf(f, id, f.workers[v].models[0])
    ensures Advance(f, 0, [id]) == f && Collect(f, [id], [u, v], map[]) == (f, [c])
  {
    var req, k, l := f.seqs[id].req, f.workers[u].models, f.workers[v].models;
    c := CandidateOf(f, id, l[0]);
    assert [id][..0] == [] && [u, v][1..] == [v] && k[1..] == [];
    assert Advance(f, 0, []) == f && Collect(f, [], [u, v], map[]) == (f, []);
    assert KeyAmong(f.workers[u], req, []) == None && KeyAmong(f.workers[u], req, k) == None;
    assert KeyAmong(f.workers[v], req, l) == Some(l[0]);
    assert KeyFor(f, [v], req) == Some(l[0]);
    assert KeyFor(f, [u, v], req) == Some(l[0]);
    assert CollectOne(f, id, [u, v], map[]) == (f, [c]);
    assert [] + [c] == [c];
  }

  lemma FirstTaken(f: FabricState, u: nat, v: nat, k: CompatibilityKey)
    requires u in f.workers && Free(f.workers[u]) && P.Twins(f.workers[u].models[0], k)
    requires v in f.workers && f.workers[v].active == 0
    ensures Place(f, [u, v], k) == Some(u)
  {
    assert [u, v][..1] == [u] && [u][..0] == [];
    assert Fits(f.workers[u], k) by { assert f.workers[u].models[0].model == k.model; }
    assert Place(f, [], k) == None && Place(f, [u], k) == Some(u);
  }

  /** The request takes sequence `id`, and only it, to worker `w`. */
  predicate Takes(req: ExecutionRequest, id: nat, w: Worker) {
    req.worker == w.id && req.device == w.device && |req.members| == 1 && req.members[0].sequence == id
  }

  lemma GroupTaken(cfg: Config, f: FabricState, c: G.Candidate, u: nat, v: nat) returns (req: ExecutionRequest)
    requires TwoOffers(f, c.sequence, u, v) && c.key == f.workers[v].models[0]
    ensures var g := [G.Group(c.key, [c])];
      DispatchAll(cfg, MoveGroups(f, g, Grouped), [u, v], g).1 == [req] && Takes(req, c.sequence, f.workers[u])
  {
    var id, g := c.sequence, G.Group(c.key, [c]);
    assert [g][..0] == [] && [c][..0] == [];
    var f1 := Put(f, id, f.seqs[id].(state := Grouped));
    assert MoveAll(f, [], Grouped) == f && MoveAll(f, [c], Grouped) == f1;
    assert MoveGroups(f, [], Grouped) == f && MoveGroups(f, [g], Grouped) == f1;
    assert DispatchAll(cfg, f1, [u, v], []) == (f1, []);
    FirstTaken(f1, u, v, c.key);
    assert Growth(f1, []) == 0 && Growth(f1, [c]) == 64;
    assert Specs(f1, []) == [] && Specs(f1, [c]) == [] + [SpecOf(id, f1.seqs[id])];
    req := RequestFor(cfg, f1, f1.workers[u], g);
    assert [] + [req] == [req];
  }

  /** A sequence goes to the worker that is asked first, whether or not that one serves it. */
  lemma SentAstray(cfg: Config, f: FabricState, id: nat, u: nat, v: nat) returns (req: ExecutionRequest)
    requires cfg.limits == G.GroupLimits(8, 0, G.BULK) && TwoOffers(f, id, u, v)
    ensures Schedule(cfg, f, 0, [id], [u, v], map[]).1 == [req] && Takes(req, id, f.workers[u])
  {
    var c := SecondServes(f, id, u, v);
    SoleGroup(cfg.limits, cfg.keyText, c);
    req := GroupTaken(cfg, f, c, u, v);
  }

  function AstrayStartRun(a: Worker, b: Worker, req: DecodeRequest): seq<N.Action> {
    [N.Local(O.Register(a))] + [N.Local(O.Register(b))] + [N.Local(O.Submit(req, [a.id, b.id], true))]
  }

  /** Two workers register, a sequence is submitted and sent out. */
  function AstrayRun(a: Worker, b: Worker, req: DecodeRequest): seq<N.Action> {
    AstrayStartRun(a, b, req) + [N.Schedule(0, [req.sequence], [a.id, b.id], map[])]
  }

  /** Workers as they may register, with unlimited memory. */
  predicate Registrable(a: Worker, b: Worker) {
    && a.id != NULL && a.boot != NULL && b.id != NULL && b.boot != NULL && a.id != b.id
    && Free(a) && Free(b) && a.device.memoryBytes == 0 && b.device.memoryBytes == 0
  }

  predicate Fresh(req: DecodeRequest) {
    req.Valid() && req.deadline == 0 && req.state.estimatedGrowth == 0 && !NewSequence(req).tally.budget.Exhausted()
  }

  lemma AstrayStart(cfg: Config, a: Worker, b: Worker, req: DecodeRequest) returns (f: FabricState)
    requires Registrable(a, b) && Fresh(req) && b.models[0].Valid() && P.Twins(a.models[0], b.models[0])
    requires Serves(b, req, b.models[0]) && !Serves(a, req, a.models[0])
    ensures f == Submit(Register(cfg, Register(cfg, Start, a), b), req, [a.id, b.id], true)
    ensures TwoOffers(f, req.sequence, a.id, b.id) && f.workers[a.id] == a && f.seqs[req.sequence].req == req
  {
    var f1 := Register(cfg, Register(cfg, Start, a), b);
    f := Submit(f1, req, [a.id, b.id], true);
    assert [a.id, b.id][1..] == [b.id] && a.models[1..] == [];
    assert KeyAmong(a, req, []) == None && KeyAmong(a, req, a.models) == None;
    assert KeyAmong(b, req, b.models) == Some(b.models[0]);
    assert KeyFor(f1, [b.id], req) == Some(b.models[0]);
    assert KeyFor(f1, [a.id, b.id], req) == Some(b.models[0]);
  }

  lemma RequestsNext(cfg: Config, num: E.Numerics, actions: seq<N.Action>, op: O.Operation)
    ensures N.Run(cfg, num, actions + [N.Local(op)]).mail == N.Run(cfg, num, actions).mail
  {
    assert (actions + [N.Local(op)])[..|actions|] == actions;
  }

  lemma MailNext(cfg: Config, num: E.Numerics, actions: seq<N.Action>, order: seq<nat>, workerOrder: seq<nat>)
    ensures N.Run(cfg, num, actions + [N.Schedule(0, order, workerOrder, map[])]).mail.requests
         == N.Run(cfg, num, actions).mail.requests
              + set r | r in Schedule(cfg, N.Run(cfg, num, actions).fabric, 0, order, workerOrder, map[]).1
  {
    assert (actions + [N.Schedule(0, order, workerOrder, map[])])[..|actions|] == actions;
  }

  /** Where the run stands before anything is sent out. */
  lemma AstrayBefore(cfg: Config, num: E.Numerics, a: Worker, b: Worker, req: DecodeRequest) returns (n: N.Net)
    ensures n == N.Run(cfg, num, AstrayStartRun(a, b, req)) && n.mail.requests == {}
    ensures n.fabric == Submit(Register(cfg, Register(cfg, Start, a), b), req, [a.id, b.id], true)
  {
    var x, y, z := O.Register(a), O.Register(b), O.Submit(req, [a.id, b.id], true);
    LocalNext(cfg, num, [], x);
    LocalNext(cfg, num, [N.Local(x)], y);
    LocalNext(cfg, num, [N.Local(x)] + [N.Local(y)], z);
    RequestsNext(cfg, num, [], x);
    RequestsNext(cfg, num, [N.Local(x)], y);
    RequestsNext(cfg, num, [N.Local(x)] + [N.Local(y)], z);
    assert [] + [N.Local(x)] == [N.Local(x)];
    n := N.Run(cfg, num, AstrayStartRun(a, b, req));
  }

  lemma AstrayMail(cfg: Config, num: E.Numerics, a: Worker, b: Worker, req: DecodeRequest, out: ExecutionRequest,
                   f: FabricState)
    requires f == Submit(Register(cfg, Register(cfg, Start, a), b), req, [a.id, b.id], true)
    requires Schedule(cfg, f, 0, [req.sequence], [a.id, b.id], map[]).1 == [out]
    ensures N.Run(cfg, num, AstrayRun(a, b, req)).mail.requests == {out}
  {
    var n := AstrayBefore(cfg, num, a, b, req);
    MailNext(cfg, num, AstrayStartRun(a, b, req), [req.sequence], [a.id, b.id]);
    assert (set r | r in [out]) == {out};
  }

  /**
   Any two workers whose keys agree in model, revision and key device: a run that sends a
   sequence to the one that does not serve it, although the other one does.
   */
  lemma Astray(cfg: Config, num: E.Numerics, a: Worker, b: Worker, req: DecodeRequest) returns (out: ExecutionRequest)
    requires cfg.limits == G.GroupLimits(8, 0, G.BULK) && Registrable(a, b) && Fresh(req)
    requires b.models[0].Valid() && P.Twins(a.models[0], b.models[0])
    requires Serves(b, req, b.models[0]) && !Serves(a, req, a.models[0])
    ensures N.Run(cfg, num, AstrayRun(a, b, req)).mail.requests == {out} && Takes(out, req.sequence, a)
    ensures req.deviceConstraint != NULL && a.device.id != b.device.id ==> out.device.id != req.deviceConstraint
    ensures req.adapter != a.models[0].adapter ==> !P.Equipped(a, req)
  {
    var f := AstrayStart(cfg, a, b, req);
    out := SentAstray(cfg, f, req.sequence, a.id, b.id);
    AstrayMail(cfg, num, a, b, req, out, f);
  }

  /** What asks for the key of `w`, on the device `device` if that is not null. */
  function AskingFor(w: Worker, device: nat): DecodeRequest
    requires |w.models| == 1
  {
    var k := w.models[0];
    RequestOn(1, device).(model := k.model, revision := k.revision, adapter := k.adapter)
  }

  predicate Offered(k: CompatibilityKey) {
    k.model != NULL && k.revision != NULL && k.device != NULL
  }

  /**
   Twin keys on two devices always leave a run that misses a device asked for: the sequence
   asks for the device of `y`, and is sent to that of `x`.
   */
  lemma DeviceMissed(cfg: Config, num: E.Numerics, a: Worker, b: Worker)
    returns (x: Worker, y: Worker, out: ExecutionRequest)
    requires cfg.limits == G.GroupLimits(8, 0, G.BULK) && Registrable(a, b)
    requires Offered(b.models[0]) && P.Twins(a.models[0], b.models[0]) && a.device.id != b.device.id
    ensures (x, y) == (a, b) || (x, y) == (b, a)
    ensures y.device.id != NULL
      && N.Run(cfg, num, AstrayRun(x, y, AskingFor(y, y.device.id))).mail.requests == {out}
      && Takes(out, 1, x) && out.device.id != y.device.id
  {
    x, y := a, b;
    if b.device.id == NULL {
      x, y := b, a;
    }
    out := Astray(cfg, num, x, y, AskingFor(y, y.device.id));
  }

  /** Twin keys with two adapters always leave a run that sends a sequence where its adapter is not offered. */
  lemma AdapterMissed(cfg: Config, num: E.Numerics, a: Worker, b: Worker) returns (out: ExecutionRequest)
    requires cfg.limits == G.GroupLimits(8, 0, G.BULK) && Registrable(a, b)
    requires Offered(b.models[0]) && P.Twins(a.models[0], b.models[0]) && a.models[0].adapter != b.models[0].adapter
    ensures N.Run(cfg, num, AstrayRun(a, b, AskingFor(b, NULL))).mail.requests == {out}
    ensures Takes(out, 1, a) && !P.Equipped(a, AskingFor(b, NULL)) && P.Equipped(b, AskingFor(b, NULL))
  {
    out := Astray(cfg, num, a, b, AskingFor(b, NULL));
    assert b.models[0].adapter == AskingFor(b, NULL).adapter;
  }

  // ---------------------------------------------------------------------------
  // An end that is recorded and not reached

  /** A receipt that ends its sequence is recorded; the state gets there from three states only. */
  lemma EndReached(cfg: Config, f: FabricState, rec: MemberReceipt)
    requires Finalises(f, rec) && Ends(f.seqs[rec.auth.sequence].tally, rec)
    ensures var id, f' := rec.auth.sequence, Finalise(cfg, f, rec);
      && id in f'.seqs && id in f'.terminal && f'.terminal[id] == Completed
      && var s := f.seqs[id].state;
      && (f'.seqs[id].state.Completed? <==> s.Dispatched? || s.Running? || s.StepCompleted?)
      && (!f'.seqs[id].state.Completed? ==> f'.seqs[id].state == s)
  {
  }

  /** Completed on the record, and up for the next token in its state. */
  predicate EndedOpen(f: FabricState, id: nat) {
    && id in f.seqs && id in f.terminal && f.terminal[id] == Completed
    && f.seqs[id].state.Waiting? && Candidate(f.seqs[id].state)
  }

  /** The sequence has another token to come, and a worker to make it. */
  predicate Servable(f: FabricState, workerOrder: seq<nat>, id: nat) {
    && id in f.seqs && !f.seqs[id].tally.budget.Exhausted()
    && KeyFor(f, workerOrder, f.seqs[id].req).Some? && KeyFor(f, workerOrder, f.seqs[id].req).value.Valid()
  }

  lemma OrphanWaits(f: FabricState, id: nat, w: nat, rec: MemberReceipt) returns (f': FabricState)
    requires Finalises(f, rec) && rec.auth.sequence == id
    requires f.seqs[id].state.Dispatched? && f.seqs[id].flight.active && f.seqs[id].flight.worker == w
    ensures f' == MarkWorkerDead(f, w, [id]) && Finalises(f', rec) && f'.seqs[id].state.Waiting?
    ensures f'.seqs[id].tally == f.seqs[id].tally
  {
    f' := MarkWorkerDead(f, w, [id]);
    assert [id][..0] == [];
    var f1 := if w in f.workers
              then f.(workers := f.workers[w := f.workers[w].(health := FAILED, active := 0)]) else f;
    assert OrphanAll(f1, w, []) == f1;
    assert f' == Orphan(f1, w, id);
  }

  lemma EndedPicked(f: FabricState, id: nat, workerOrder: seq<nat>, score: map<nat, real>)
    requires EndedOpen(f, id) && Servable(f, workerOrder, id)
    ensures CollectOne(f, id, workerOrder, score).1 != []
  {
  }

  /**
   A last receipt that comes in after its worker was marked dead: the end is recorded, the
   sequence stays Waiting, and a sequence that was to stop at that token is picked again.
   */
  lemma EndMissed(cfg: Config, f: FabricState, id: nat, w: nat, rec: MemberReceipt, workerOrder: seq<nat>,
                  score: map<nat, real>)
    returns (f1: FabricState, f2: FabricState)
    requires Finalises(f, rec) && rec.auth.sequence == id && Ends(f.seqs[id].tally, rec)
    requires f.seqs[id].state.Dispatched? && f.seqs[id].flight.active && f.seqs[id].flight.worker == w
    ensures f1 == MarkWorkerDead(f, w, [id]) && Finalises(f1, rec) && f2 == Finalise(cfg, f1, rec) && EndedOpen(f2, id)
    ensures Servable(f2, workerOrder, id) ==> CollectOne(f2, id, workerOrder, score).1 != []
  {
    f1 := OrphanWaits(f, id, w, rec);
    EndReached(cfg, f1, rec);
    f2 := Finalise(cfg, f1, rec);
    if Servable(f2, workerOrder, id) {
      EndedPicked(f2, id, workerOrder, score);
    }
  }

  // ---------------------------------------------------------------------------
  // A dispatch that leaves the state behind

  /** Of the states the scheduler picks from, only two reach Dispatched; the others are sent out as they are. */
  lemma DispatchedExactly(f: FabricState, id: nat, d: nat, worker: nat, rid: nat)
    requires id in f.seqs && Candidate(f.seqs[id].state)
    ensures var s := f.seqs[id]; var f' := Bind(Put(f, id, s.(state := Move(s.state, Grouped))), id, d, worker, rid);
      && id in f'.seqs && f'.seqs[id].flight == Flight(d, worker, s.tally.generation, true)
      && (f'.seqs[id].state.Dispatched? <==> s.state.Ready? || s.state.ReadyForNextToken?)
      && (!f'.seqs[id].state.Dispatched? ==> f'.seqs[id].state == s.state)
  {
  }
}
