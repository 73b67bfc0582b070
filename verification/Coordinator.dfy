/**
 The coordinator as an object: its tables and counters updated in place, with every
 public operation tied to its meaning in `Fabric`.
 */
module Coordinator {
  import opened Types
  import opened Lifecycle
  import S = Fabric
  import G = Grouping
  import L = GroupingLoop
  import M = Memory

  class DecodeFabric {
    const cfg: S.Config
    var epoch: nat
    var seqs: map<nat, S.Sequence>
    var workers: map<nat, S.Worker>
    var workerBoot: map<nat, nat>
    var terminalRecords: map<nat, SequenceState>
    var grantLedger: map<nat, S.GrantRecord>
    var reservations: map<nat, M.Reservation>
    var devMem: map<nat, M.DeviceMemory>
    var nextReservation: nat
    var nextSeq: nat
    var nextDispatch: nat
    var nextGrant: nat
    var receiptCount: nat
    var decodeSteps: nat
    var generatedTokens: nat
    var tenantTokens: map<nat, nat>

    ghost function View(): S.FabricState
      reads this
    {
      S.FabricState(epoch, seqs, workers, workerBoot, terminalRecords, grantLedger,
                    M.Memory(reservations, devMem, nextReservation), S.Counters(nextSeq, nextDispatch, nextGrant),
                    S.Stats(receiptCount, decodeSteps, generatedTokens, tenantTokens))
    }

    constructor (cfg: S.Config)
      ensures View() == S.Start && this.cfg == cfg
    {
      this.cfg := cfg;
      epoch, seqs, workers, workerBoot, terminalRecords, grantLedger := 1, map[], map[], map[], map[], map[];
      reservations, devMem, nextReservation := map[], map[], 1;
      nextSeq, nextDispatch, nextGrant := 1, 1, 1;
      receiptCount, decodeSteps, generatedTokens, tenantTokens := 0, 0, 0, map[];
    }

    // -------------------------------------------------------------------------
    // Shared steps

    /** Gives back the reservation of a sequence, once. */
    method ReleaseReservation(id: nat)
      requires id in seqs
      modifies this`seqs, this`reservations, this`devMem
      ensures View() == S.PutReleased(old(View()), id, old(seqs)[id])
    {
      var rid := seqs[id].reservation;
      if rid != NULL && rid in reservations {
        var r := reservations[rid];
        if r.device in devMem {
          var d := devMem[r.device];
          devMem := devMem[r.device := d.(reserved := if d.reserved >= r.bytes then d.reserved - r.bytes else 0)];
        }
        reservations := reservations - {rid};
      }
      seqs := seqs[id := seqs[id].(reservation := NULL)];
    }

    /** A refused transition changes nothing. */
    method TransitionTo(id: nat, to: SequenceState)
      requires id in seqs
      modifies this`seqs
      ensures seqs == old(seqs)[id := old(seqs)[id].(state := Move(old(seqs)[id].state, to))]
    {
      if CanTransition(seqs[id].state, to) {
        seqs := seqs[id := seqs[id].(state := to)];
      }
    }

    method TransitionVia(id: nat, via: SequenceState, to: SequenceState)
      requires id in seqs
      modifies this`seqs
      ensures seqs == old(seqs)[id := old(seqs)[id].(state := MoveThrough(old(seqs)[id].state, via, to))]
    {
      TransitionTo(id, via);
      TransitionTo(id, to);
    }

    /** Puts a dispatched sequence back, through the completed step, to `to`. */
    method Requeue(id: nat, to: SequenceState)
      requires id in seqs
      modifies this`seqs
      ensures var s := old(seqs)[id];
        seqs == old(seqs)[id := s.(state := if s.state.Dispatched? || s.state.Running?
                                            then MoveThrough(s.state, StepCompleted, to) else s.state)]
    {
      if seqs[id].state.Dispatched? || seqs[id].state.Running? {
        TransitionVia(id, StepCompleted, to);
      }
    }

    method CloseSequence(id: nat, to: SequenceState)
      requires id in seqs
      modifies this`seqs, this`reservations, this`devMem, this`terminalRecords
      ensures View() == S.Close(old(View()), id, to)
    {
      ReleaseReservation(id);
      TransitionTo(id, to);
      terminalRecords := terminalRecords[id := to];
      assert seqs == old(seqs)[id := seqs[id]];
    }

    // -------------------------------------------------------------------------
    // Admission

    method KeyForModel(req: S.DecodeRequest, workerOrder: seq<nat>) returns (k: Option<CompatibilityKey>)
      ensures k == S.KeyFor(View(), workerOrder, req)
    {
      for i := 0 to |workerOrder|
        invariant S.KeyFor(View(), workerOrder, req) == S.KeyFor(View(), workerOrder[i..], req)
      {
        assert workerOrder[i..][1..] == workerOrder[i + 1..];
        if workerOrder[i] in workers {
          var w := workers[workerOrder[i]];
          for j := 0 to |w.models|
            invariant S.KeyAmong(w, req, w.models) == S.KeyAmong(w, req, w.models[j..])
          {
            assert w.models[j..][1..] == w.models[j + 1..];
            if S.Serves(w, req, w.models[j]) {
              return Some(w.models[j]);
            }
          }
        }
      }
      k := None;
    }

    /** A sequence as it is admitted; tokens generated elsewhere count against the budget. */
    method FirstState(req: S.DecodeRequest) returns (s: S.Sequence)
      ensures s == S.NewSequence(req).(state := Admitted)
    {
      var budget, generated := TokenBudget(req.maxGeneration, 0), 0;
      if req.pregenerated > 0 {
        budget := budget.Advance(req.pregenerated);
        generated := req.pregenerated;
      }
      s := S.Sequence(req, Admitted, if req.initialAttempt != NULL then req.initialAttempt else req.id, 1,
                      S.Tally(budget, req.promptLength + generated, generated, generated, 1, 0, false, None),
                      S.Flight(NULL, NULL, 0, false), None, NULL, req.state);
    }

    /** `admit` is the outcome of the back-pressure checks. */
    method Submit(req: S.DecodeRequest, workerOrder: seq<nat>, admit: bool) returns (admitted: bool)
      modifies this`seqs
      ensures View() == S.Submit(old(View()), req, workerOrder, admit)
      ensures admitted <==> View() != old(View())
    {
      if !req.Valid() {
        return false;
      }
      var k := KeyForModel(req, workerOrder);
      if k.None? || !admit || req.sequence in seqs {
        return false;
      }
      var s := FirstState(req);
      seqs := seqs[req.sequence := s];
      TransitionVia(req.sequence, Waiting, Ready);
      assert seqs == old(seqs)[req.sequence := seqs[req.sequence]];
      admitted := true;
    }

    // -------------------------------------------------------------------------
    // Cancellation, retry, workers, epochs, boundaries

    method Cancel(id: nat) returns (cancelled: bool)
      modifies this`seqs, this`reservations, this`devMem, this`terminalRecords
      ensures View() == S.Cancel(old(View()), id)
      ensures cancelled <==> id in old(seqs) && !Terminal(old(seqs)[id].state) && !old(seqs)[id].state.CancelRequested?
    {
      if id !in seqs || Terminal(seqs[id].state) || seqs[id].state.CancelRequested? {
        return false;
      }
      var st := seqs[id].state;
      if st.Dispatched? || st.Running? || st.Reserved? || st.Grouped? {
        TransitionTo(id, CancelRequested);
      } else {
        CloseSequence(id, Cancelled);
      }
      cancelled := true;
    }

    /** Starts a new attempt, or records the sequence named `named` as failed once the attempts are used up. */
    method NewAttempt(id: nat, named: nat) returns (renewed: bool)
      requires id in seqs
      modifies this`seqs, this`terminalRecords
      ensures View() == S.TryAgain(cfg, old(View()), id, named)
      ensures renewed <==> old(seqs)[id].attemptCount < cfg.maxAttempts
    {
      if seqs[id].attemptCount >= cfg.maxAttempts {
        TransitionTo(id, NonRetryableFailure);
        terminalRecords := terminalRecords[named := NonRetryableFailure];
        return false;
      }
      seqs := seqs[id := seqs[id].(attempt := nextDispatch + 1000000, attemptCount := seqs[id].attemptCount + 1)];
      TransitionVia(id, Retrying, Ready);
      assert seqs == old(seqs)[id := seqs[id]];
      renewed := true;
    }

    method Retry(id: nat) returns (retried: bool)
      modifies this`seqs, this`terminalRecords
      ensures View() == S.Retry(cfg, old(View()), id)
      ensures retried <==>
        id in old(seqs) && Retryable(old(seqs)[id].state) && old(seqs)[id].attemptCount < cfg.maxAttempts
      ensures retried <==> id in old(seqs) && seqs[id].attemptCount == old(seqs)[id].attemptCount + 1
    {
      if id !in seqs {
        return false;
      }
      var st := seqs[id].state;
      if !Retryable(st) {
        return false;
      }
      if !cfg.preserveCommitted {
        seqs := seqs[id := seqs[id].(tally := seqs[id].tally.(generated := seqs[id].tally.committed))];
      }
      assert seqs == old(seqs)[id := seqs[id]];
      retried := NewAttempt(id, id);
    }

    method RegisterWorker(w: S.Worker) returns (ok: bool)
      modifies this`workers, this`workerBoot, this`devMem
      ensures View() == S.Register(cfg, old(View()), w)
      ensures ok <==> w.id != NULL && w.boot != NULL
    {
      if w.id == NULL || w.boot == NULL {
        return false;
      }
      workers := workers[w.id := w];
      workerBoot := workerBoot[w.id := w.boot];
      var d := if w.device.id in devMem then devMem[w.device.id] else M.DeviceMemory(0, 0, 0);
      if d.capacity < w.device.memoryBytes {
        d := d.(capacity := w.device.memoryBytes);
      }
      devMem := devMem[w.device.id := d.(headroomFloor := cfg.headroomFloor)];
      ok := true;
    }

    method OrphanOne(worker: nat, id: nat)
      modifies this`seqs, this`reservations, this`devMem
      ensures View() == S.Orphan(old(View()), worker, id)
    {
      if id in seqs && seqs[id].flight.active && seqs[id].flight.worker == worker {
        ReleaseReservation(id);
        seqs := seqs[id := seqs[id].(flight := seqs[id].flight.(active := false))];
        Requeue(id, Waiting);
        assert seqs == old(seqs)[id := seqs[id]];
      }
    }

    method MarkWorkerDead(worker: nat, order: seq<nat>)
      modifies this`seqs, this`reservations, this`devMem, this`workers
      ensures View() == S.MarkWorkerDead(old(View()), worker, order)
    {
      if worker in workers {
        workers := workers[worker := workers[worker].(health := S.FAILED, active := 0)];
      }
      ghost var f1 := View();
      for i := 0 to |order|
        invariant View() == S.OrphanAll(f1, worker, order[..i])
      {
        assert order[..i + 1][..i] == order[..i];
        OrphanOne(worker, order[i]);
      }
      assert order[..|order|] == order;
    }

    method RollEpoch() returns (e: nat)
      modifies this`epoch
      ensures View() == S.RollEpoch(old(View())) && e == old(epoch) + 1
    {
      epoch := epoch + 1;
      e := epoch;
    }

    method SettleOne(now: int, id: nat)
      modifies this`seqs, this`reservations, this`devMem, this`terminalRecords
      ensures View() == S.Settle(old(View()), now, id)
    {
      if id !in seqs || Terminal(seqs[id].state) {
        return;
      }
      if seqs[id].req.deadline != 0 && now >= seqs[id].req.deadline {
        CloseSequence(id, DeadlineExpired);
      } else if seqs[id].state.CancelRequested? {
        CloseSequence(id, Cancelled);
      }
    }

    method Advance(now: int, order: seq<nat>)
      modifies this`seqs, this`reservations, this`devMem, this`terminalRecords
      ensures View() == S.Advance(old(View()), now, order)
    {
      for i := 0 to |order|
        invariant View() == S.Advance(old(View()), now, order[..i])
      {
        assert order[..i + 1][..i] == order[..i];
        SettleOne(now, order[i]);
      }
      assert order[..|order|] == order;
    }

    // -------------------------------------------------------------------------
    // Scheduling

    method CollectCandidates(order: seq<nat>, workerOrder: seq<nat>, score: map<nat, real>)
      returns (cands: seq<G.Candidate>)
      modifies this`seqs, this`reservations, this`devMem, this`terminalRecords
      ensures (View(), cands) == S.Collect(old(View()), order, workerOrder, score)
    {
      cands := [];
      for i := 0 to |order|
        invariant (View(), cands) == S.Collect(old(View()), order[..i], workerOrder, score)
      {
        assert order[..i + 1][..i] == order[..i];
        var more := CollectCandidate(order[i], workerOrder, score);
        cands := cands + more;
      }
      assert order[..|order|] == order;
    }

    /** The candidate a sequence gives rise to, if any; an exhausted one is recorded as completed. */
    method CollectCandidate(id: nat, workerOrder: seq<nat>, score: map<nat, real>) returns (more: seq<G.Candidate>)
      modifies this`seqs, this`reservations, this`devMem, this`terminalRecords
      ensures (View(), more) == S.CollectOne(old(View()), id, workerOrder, score)
    {
      if id !in seqs || !Candidate(seqs[id].state) {
        return [];
      }
      if seqs[id].tally.budget.Exhausted() {
        CloseSequence(id, Completed);
        return [];
      }
      var k := KeyForModel(seqs[id].req, workerOrder);
      if k.None? || !k.value.Valid() {
        return [];
      }
      more := [G.Candidate(id, k.value, if id in score then score[id] else 0.0,
                           seqs[id].req.tenant, seqs[id].req.latencyClass)];
    }

    method MoveMembers(members: seq<G.Candidate>, to: SequenceState)
      modifies this`seqs
      ensures View() == S.MoveAll(old(View()), members, to)
    {
      for i := 0 to |members|
        invariant View() == S.MoveAll(old(View()), members[..i], to)
      {
        assert members[..i + 1][..i] == members[..i];
        if members[i].sequence in seqs {
          TransitionTo(members[i].sequence, to);
        }
      }
      assert members[..|members|] == members;
    }

    method ChooseWorker(workerOrder: seq<nat>, k: CompatibilityKey) returns (chosen: Option<nat>)
      ensures chosen == S.Place(View(), workerOrder, k)
      ensures chosen.Some? ==> chosen.value in workers
    {
      chosen := None;
      for i := 0 to |workerOrder|
        invariant chosen == S.Place(View(), workerOrder[..i], k)
        invariant chosen.Some? ==> chosen.value in workers
      {
        assert workerOrder[..i + 1][..i] == workerOrder[..i];
        var w := workerOrder[i];
        if w !in workers || !S.Fits(workers[w], k) {
          continue;
        }
        if chosen.None? || workers[w].active < workers[chosen.value].active {
          chosen := Some(w);
        }
      }
      assert workerOrder[..|workerOrder|] == workerOrder;
    }

    method GroupGrowth(members: seq<G.Candidate>) returns (growth: nat)
      ensures growth == S.Growth(View(), members)
    {
      growth := 0;
      for i := 0 to |members|
        invariant growth == S.Growth(View(), members[..i])
      {
        assert members[..i + 1][..i] == members[..i];
        var id := members[i].sequence;
        var g := if id in seqs && seqs[id].kv.estimatedGrowth != 0 then seqs[id].kv.estimatedGrowth else 64;
        growth := (growth + g) % TWO64;
      }
      assert members[..|members|] == members;
    }

    /** Lists the members of a group and binds each to the dispatch that carries it. */
    method BindMembers(members: seq<G.Candidate>, dispatch: nat, worker: nat, reservation: nat)
      returns (specs: seq<MemberSpec>)
      modifies this`seqs
      ensures View() == S.BindAll(old(View()), members, dispatch, worker, reservation)
      ensures specs == S.Specs(old(View()), members)
    {
      specs := [];
      ghost var f := View();
      for i := 0 to |members|
        invariant View() == S.BindAll(f, members[..i], dispatch, worker, reservation)
        invariant specs == S.Specs(f, members[..i])
      {
        assert members[..i + 1][..i] == members[..i];
        BindingKeepsSpecs(f, members[..i], dispatch, worker, reservation, members[i].sequence);
        var id := members[i].sequence;
        if id in seqs {
          var s := seqs[id];
          specs := specs + [MemberSpec(id, s.attempt, s.tally.generation, s.kv, s.tally.currentLength,
            s.tally.generated,
                                       s.tally.budget.Remaining(), s.req.sampling)];
          seqs := seqs[id := s.(flight := S.Flight(dispatch, worker, s.tally.generation, true),
            reservation := reservation)];
          TransitionVia(id, Reserved, Dispatched);
          assert seqs == S.BindAll(f, members[..i], dispatch, worker, reservation).seqs[id := seqs[id]];
        }
      }
      assert members[..|members|] == members;
    }

    /** Sends a group out, or puts its members back when there is no worker or no memory for it. */
    method DispatchGroup(workerOrder: seq<nat>, g: G.Group) returns (out: seq<ExecutionRequest>)
      modifies this`seqs, this`reservations, this`devMem, this`nextReservation, this`nextDispatch, this`workers
      ensures (View(), out) == S.DispatchGroup(cfg, old(View()), workerOrder, g)
    {
      if g.members == [] {
        return [];
      }
      var chosen := ChooseWorker(workerOrder, g.key);
      if chosen.None? {
        MoveMembers(g.members, Ready);
        return [];
      }
      var w := workers[chosen.value];
      var growth := GroupGrowth(g.members);
      var room := HasRoom(w.device.id, growth);
      if !room {
        MoveMembers(g.members, Ready);
        return [];
      }
      out := SendGroup(w, growth, g);
    }

    method HasRoom(device: nat, growth: nat) returns (room: bool)
      ensures room == M.HasRoom(View().memory, device, growth)
    {
      var d := if device in devMem then devMem[device] else M.DeviceMemory(0, 0, 0);
      if d.capacity > 0 {
        var headroom := if d.capacity > d.reserved then d.capacity - d.reserved else 0;
        if growth > headroom || (d.headroomFloor > 0 && headroom < d.headroomFloor) {
          return false;
        }
      }
      room := true;
    }

    method Reserve(device: nat, growth: nat) returns (rid: nat)
      modifies this`reservations, this`devMem, this`nextReservation
      ensures View() == old(View()).(memory := M.Reserve(old(View()).memory, device, growth))
      ensures rid == old(nextReservation)
    {
      rid := nextReservation;
      nextReservation := nextReservation + 1;
      var d := if device in devMem then devMem[device] else M.DeviceMemory(0, 0, 0);
      reservations := reservations[rid := M.Reservation(device, growth)];
      devMem := devMem[device := d.(reserved := (d.reserved + growth) % TWO64)];
    }

    method SendGroup(w: S.Worker, growth: nat, g: G.Group) returns (out: seq<ExecutionRequest>)
      requires growth == S.Growth(View(), g.members)
      modifies this`seqs, this`reservations, this`devMem, this`nextReservation, this`nextDispatch, this`workers
      ensures View() == S.SendTo(old(View()), w, g)
      ensures out == [S.RequestFor(cfg, old(View()), w, g)]
    {
      var rid := Reserve(w.device.id, growth);
      var dispatch := nextDispatch;
      nextDispatch := nextDispatch + 1;
      SpecsSame(old(View()), View(), g.members);
      var specs := BindMembers(g.members, dispatch, w.id, rid);
      workers := workers[w.id := w.(active := w.active + 1)];
      out := [ExecutionRequest(dispatch, epoch, w.id, if w.id in workerBoot then workerBoot[w.id] else NULL,
                               g.key, w.device, rid, specs, S.TextBytes(cfg.keyText(g.key)), 0)];
    }

    method Schedule(now: int, order: seq<nat>, workerOrder: seq<nat>, score: map<nat, real>)
      returns (out: seq<ExecutionRequest>)
      modifies this`seqs, this`reservations, this`devMem, this`nextReservation, this`nextDispatch, this`workers,
        this`terminalRecords
      ensures (View(), out) == S.Schedule(cfg, old(View()), now, order, workerOrder, score)
    {
      Advance(now, order);
      var cands := CollectCandidates(order, workerOrder, score);
      var groups := L.Form(cfg.limits, cfg.keyText, cands);
      MarkGrouped(groups);
      out := DispatchGroups(workerOrder, groups);
    }

    method MarkGrouped(groups: seq<G.Group>)
      modifies this`seqs
      ensures View() == S.MoveGroups(old(View()), groups, Grouped)
    {
      for i := 0 to |groups|
        invariant View() == S.MoveGroups(old(View()), groups[..i], Grouped)
      {
        assert groups[..i + 1][..i] == groups[..i];
        MoveMembers(groups[i].members, Grouped);
      }
      assert groups[..|groups|] == groups;
    }

    method DispatchGroups(workerOrder: seq<nat>, groups: seq<G.Group>) returns (out: seq<ExecutionRequest>)
      modifies this`seqs, this`reservations, this`devMem, this`nextReservation, this`nextDispatch, this`workers
      ensures (View(), out) == S.DispatchAll(cfg, old(View()), workerOrder, groups)
    {
      out := [];
      for i := 0 to |groups|
        invariant (View(), out) == S.DispatchAll(cfg, old(View()), workerOrder, groups[..i])
      {
        assert groups[..i + 1][..i] == groups[..i];
        var more := DispatchGroup(workerOrder, groups[i]);
        out := out + more;
      }
      assert groups[..|groups|] == groups;
    }

    // -------------------------------------------------------------------------
    // Outcomes that commit nothing

    method StaleReconcile(id: nat)
      requires id in seqs
      modifies this`seqs, this`reservations, this`devMem
      ensures View() == S.Reconcile(old(View()), id)
    {
      seqs := seqs[id := seqs[id].(flight := seqs[id].flight.(active := false, dispatch := NULL), pending := None)];
      ReleaseReservation(id);
      Requeue(id, ReadyForNextToken);
      assert seqs == old(seqs)[id := seqs[id]];
    }

    /** The in-flight dispatch is over without a commit. */
    method Land(id: nat)
      requires id in seqs
      modifies this`seqs, this`reservations, this`devMem
      ensures View() == S.Landed(old(View()), id)
    {
      seqs := seqs[id := seqs[id].(flight := seqs[id].flight.(active := false, dispatch := NULL))];
      ReleaseReservation(id);
      assert seqs == old(seqs)[id := seqs[id]];
    }

    /** Rebuilds the budget of a sequence one committed token at a time. */
    method RecoveredBudget(max: nat, committed: nat) returns (b: TokenBudget)
      ensures b == AdvancedBy(TokenBudget(max, 0), committed)
    {
      b := TokenBudget(max, 0);
      for i := 0 to committed
        invariant b == AdvancedBy(TokenBudget(max, 0), i)
      {
        b := b.Advance(1);
      }
    }

    method FailStep(id: nat)
      requires id in seqs
      modifies this`seqs
      ensures View() == S.Put(old(View()), id, S.FailedStep(cfg, old(seqs)[id]))
    {
      if seqs[id].state.Dispatched? {
        TransitionTo(id, RetryableFailure);
      }
      if seqs[id].attemptCount < cfg.maxAttempts && !cfg.preserveCommitted {
        var b := RecoveredBudget(seqs[id].req.maxGeneration, seqs[id].tally.committed);
        seqs := seqs[id := seqs[id].(tally := seqs[id].tally.(generated := seqs[id].tally.committed, budget := b))];
      }
      assert seqs == old(seqs)[id := seqs[id]];
    }

    method ApplyNoncommitOutcome(id: nat, mo: MemberOutcome)
      requires id in seqs
      modifies this`seqs, this`reservations, this`devMem, this`terminalRecords
      ensures View() == S.ApplyOutcome(cfg, old(View()), id, mo)
    {
      if mo.kind == YIELDED {
        TransitionVia(id, StepCompleted, Yielded);
      } else if mo.kind == RETRYABLE_FAILURE {
        RetryableFailureOf(id, mo.sequence);
      } else if mo.kind == NON_RETRYABLE_FAILURE {
        FailureOf(id, mo.sequence);
      } else if mo.kind == OUTCOME_CANCELLED {
        EndOf(id, mo.sequence, Cancelled);
      } else if mo.kind == OUTCOME_EXPIRED {
        EndOf(id, mo.sequence, DeadlineExpired);
      }
    }

    method RetryableFailureOf(id: nat, named: nat)
      requires id in seqs
      modifies this`seqs, this`reservations, this`devMem, this`terminalRecords
      ensures View() == S.RetryableOutcome(cfg, old(View()), id, named)
    {
      if named in seqs {
        ReleaseReservation(named);
      }
      FailStep(id);
      var _ := NewAttempt(id, named);
    }

    method FailureOf(id: nat, named: nat)
      requires id in seqs
      modifies this`seqs, this`terminalRecords
      ensures View() == S.FatalOutcome(old(View()), id, named)
    {
      if seqs[id].state.Dispatched? {
        TransitionTo(id, NonRetryableFailure);
      }
      terminalRecords := terminalRecords[named := NonRetryableFailure];
      assert seqs == old(seqs)[id := seqs[id]];
    }

    method EndOf(id: nat, named: nat, to: SequenceState)
      requires id in seqs
      modifies this`seqs, this`terminalRecords
      ensures View() == S.EndOutcome(old(View()), id, named, to)
    {
      if !Terminal(seqs[id].state) {
        TransitionTo(id, to);
        terminalRecords := terminalRecords[named := to];
      }
    }

    method CompleteMember(result: ExecutionResult, mo: MemberOutcome)
      modifies this`seqs, this`reservations, this`devMem, this`terminalRecords
      ensures View() == S.CompleteMember(cfg, old(View()), result, mo)
    {
      var id := mo.sequence;
      if id !in seqs {
        return;
      }
      if result.epoch != epoch {
        Deactivate(id);
        return;
      }
      if result.worker in workerBoot && workerBoot[result.worker] != result.workerBoot {
        return;
      }
      if mo.attempt != seqs[id].attempt || mo.generation != seqs[id].flight.generation
         || result.dispatch != seqs[id].flight.dispatch || Terminal(seqs[id].state) {
        return;
      }
      if seqs[id].state.CancelRequested? {
        Deactivate(id);
        return;
      }
      if mo.kind == STALE_AUTHORITY_REJECTED || Succeeded(mo.kind) {
        return;
      }
      Land(id);
      ApplyNoncommitOutcome(id, mo);
    }

    method Deactivate(id: nat)
      requires id in seqs
      modifies this`seqs, this`reservations, this`devMem
      ensures View() == S.PutReleased(old(View()), id, old(seqs)[id].(flight := old(seqs)[id].flight.(active := false)))
    {
      seqs := seqs[id := seqs[id].(flight := seqs[id].flight.(active := false))];
      ReleaseReservation(id);
      assert seqs == old(seqs)[id := seqs[id]];
    }

    method ApplyCompletion(result: ExecutionResult)
      modifies this`seqs, this`reservations, this`devMem, this`terminalRecords
      ensures View() == S.Complete(cfg, old(View()), result, |result.outcomes|)
    {
      for i := 0 to |result.outcomes|
        invariant View() == S.Complete(cfg, old(View()), result, i)
      {
        CompleteMember(result, result.outcomes[i]);
      }
    }

    // -------------------------------------------------------------------------
    // Grants, receipts, aborts

    method IsCurrent(pm: PreparedMember) returns (ok: bool)
      requires pm.auth.sequence in seqs
      ensures ok == S.Current(View(), pm)
    {
      var s := seqs[pm.auth.sequence];
      if pm.auth.epoch != epoch {
        return false;
      }
      if pm.auth.worker in workerBoot && workerBoot[pm.auth.worker] != pm.auth.workerBoot {
        return false;
      }
      if pm.auth.attempt != s.attempt || pm.auth.generation != s.flight.generation
        || pm.auth.dispatch != s.flight.dispatch {
        return false;
      }
      ok := !Terminal(s.state) && !s.state.CancelRequested?;
    }

    method ExtendsCommitted(pm: PreparedMember) returns (ok: bool)
      requires pm.auth.sequence in seqs
      ensures ok == S.Extends(cfg, View(), pm)
    {
      var s := seqs[pm.auth.sequence];
      if s.tally.accepted.Some? && s.tally.accepted.value.key == cfg.acceptKey(pm.auth, pm.before) {
        return false;
      }
      if s.pending.Some? || pm.before != s.tally.generated {
        return false;
      }
      ok := !(s.tally.digestEstablished && pm.pre != s.tally.digest);
    }

    method IssueGrant(prepared: PreparedDecode, pm: PreparedMember) returns (g: CommitGrant)
      requires pm.auth.sequence in seqs
      modifies this`seqs, this`grantLedger, this`nextGrant
      ensures View() == S.Issue(old(View()), prepared, pm)
      ensures g == S.GrantFor(old(nextGrant), prepared, pm)
    {
      var gid := nextGrant;
      nextGrant := nextGrant + 1;
      g := CommitGrant(gid, pm.proposal,
                       pm.auth.(epoch := prepared.epoch, worker := prepared.worker, workerBoot := prepared.workerBoot),
                       pm.before, pm.pre, pm.post, pm.delta, pm.outcome.kind, pm.outcome.terminal,
                       pm.outcome.token % TWO32, pm.activeNs);
      grantLedger := grantLedger[gid := S.GrantRecord(g, S.GRANT_PENDING, None)];
      seqs := seqs[pm.auth.sequence := seqs[pm.auth.sequence].(pending := Some(S.Pending(gid, pm.proposal)))];
    }

    method AuthorizeMember(prepared: PreparedDecode, pm: PreparedMember) returns (reply: S.Reply)
      modifies this`seqs, this`reservations, this`devMem, this`terminalRecords, this`grantLedger, this`nextGrant
      ensures (View(), reply) == S.AuthoriseMember(cfg, old(View()), prepared, pm)
    {
      var id, abort := pm.auth.sequence, AbortPrepared(pm.proposal, pm.auth);
      if id !in seqs {
        return S.SendAbort(abort, true);
      }
      var current := IsCurrent(pm);
      if !current {
        StaleReconcile(id);
        return S.SendAbort(abort, true);
      }
      if !Succeeded(pm.outcome.kind) {
        Land(id);
        ApplyNoncommitOutcome(id, pm.outcome);
        return S.SendAbort(abort, false);
      }
      var valid := ExtendsCommitted(pm);
      if !valid {
        StaleReconcile(id);
        return S.SendAbort(abort, true);
      }
      var g := IssueGrant(prepared, pm);
      reply := S.SendGrant(g);
    }

    method AuthorizePrepared(prepared: PreparedDecode) returns (out: seq<S.Reply>)
      modifies this`seqs, this`reservations, this`devMem, this`terminalRecords, this`grantLedger, this`nextGrant
      ensures (View(), out) == S.Authorise(cfg, old(View()), prepared, |prepared.members|)
    {
      out := [];
      for i := 0 to |prepared.members|
        invariant (View(), out) == S.Authorise(cfg, old(View()), prepared, i)
      {
        var reply := AuthorizeMember(prepared, prepared.members[i]);
        out := out + [reply];
      }
    }

    /** The receipt is valid for the one grant its sequence waits on. */
    method ReceiptFinalises(rec: MemberReceipt) returns (ok: bool)
      ensures ok == S.Finalises(View(), rec)
    {
      if rec.grant !in grantLedger {
        return false;
      }
      var gr := grantLedger[rec.grant];
      if gr.status == S.GRANT_CONSUMED || gr.status == S.GRANT_ABORTED || !Answers(rec, gr.grant) {
        return false;
      }
      if rec.auth.sequence !in seqs {
        return false;
      }
      var s := seqs[rec.auth.sequence];
      if s.pending.None? || s.pending.value.grant != rec.grant || s.pending.value.proposal != rec.proposal {
        return false;
      }
      ok := !Terminal(s.state) && !s.state.CancelRequested?;
    }

    /** Counts one finalised generation. */
    method CountReceipt(tenant: nat)
      modifies this`receiptCount, this`decodeSteps, this`generatedTokens, this`tenantTokens
      ensures View() == old(View()).(stats := S.Count(old(View()), tenant))
    {
      decodeSteps, generatedTokens, receiptCount := decodeSteps + 1, generatedTokens + 1, receiptCount + 1;
      UpdateTenantTokens(tenant);
    }

    /** One more token for a tenant, without passing the 64-bit maximum. */
    method UpdateTenantTokens(tenant: nat)
      modifies this`tenantTokens
      ensures tenantTokens
        == old(tenantTokens)[tenant := S.Saturating(if tenant in old(tenantTokens) then old(tenantTokens)[tenant]
        else 0)]
    {
      if tenant !in tenantTokens {
        tenantTokens := tenantTokens[tenant := 1];
      } else {
        var v := tenantTokens[tenant];
        tenantTokens := tenantTokens[tenant := if v > TWO64 - 2 then TWO64 - 1 else v + 1];
      }
    }

    /** One more authoritative token for a sequence; tells whether it was the last. */
    method AdvanceSequence(id: nat, rec: MemberReceipt) returns (terminal: bool)
      requires id in seqs
      modifies this`seqs
      ensures seqs == old(seqs)[id := S.Finalised(cfg, old(seqs)[id], rec)]
      ensures terminal == S.Ends(old(seqs)[id].tally, rec)
    {
      var t := seqs[id].tally;
      var accepted := AcceptedGeneration(cfg.acceptKey(rec.auth, rec.before), rec.auth, rec.before, rec.after,
                                         rec.pre, rec.post, rec.delta, rec.terminal, true);
      t := S.Tally(t.budget.Advance(1), t.currentLength + 1, t.generated + 1, t.committed + 1, t.generation + 1,
                   rec.post, true, Some(accepted));
      seqs := seqs[id := seqs[id].(tally := t, pending := None,
        flight := seqs[id].flight.(active := false, dispatch := NULL))];
      terminal := rec.terminal || t.budget.Exhausted();
      TransitionVia(id, StepCompleted, if terminal then Completed else ReadyForNextToken);
    }

    method FinaliseReceipt(rec: MemberReceipt)
      requires S.Finalises(View(), rec)
      modifies this
      ensures View() == S.Finalise(cfg, old(View()), rec)
    {
      var id := rec.auth.sequence;
      CountReceipt(seqs[id].req.tenant);
      grantLedger := grantLedger[rec.grant := grantLedger[rec.grant].(status := S.GRANT_CONSUMED,
        receipt := Some(rec))];
      FinaliseGeneration(id, rec);
    }

    /** Advances the sequence, gives its reservation back and records its end if this was the last token. */
    method FinaliseGeneration(id: nat, rec: MemberReceipt)
      requires id in seqs
      modifies this`seqs, this`reservations, this`devMem, this`terminalRecords
      ensures var s := old(seqs)[id];
        View() == S.PutReleased(old(View()), id, S.Finalised(cfg, s, rec))
                  .(terminal := if S.Ends(s.tally, rec) then old(terminalRecords)[id := Completed]
                    else old(terminalRecords))
    {
      var terminal := AdvanceSequence(id, rec);
      PutTwice(old(View()), id, seqs[id], seqs[id]);
      CloseGeneration(id, terminal);
    }

    method CloseGeneration(id: nat, terminal: bool)
      requires id in seqs
      modifies this`seqs, this`reservations, this`devMem, this`terminalRecords
      ensures View() == S.PutReleased(old(View()), id, old(seqs)[id])
                        .(terminal := if terminal then old(terminalRecords)[id := Completed] else old(terminalRecords))
    {
      ReleaseReservation(id);
      if terminal {
        terminalRecords := terminalRecords[id := Completed];
      }
    }

    /** Returns the receipts that finalised a generation. */
    method ApplyCommitReceipt(recs: seq<MemberReceipt>) returns (ghost done: seq<MemberReceipt>)
      modifies this
      ensures (View(), done) == S.Receive(cfg, old(View()), recs)
    {
      done := [];
      for i := 0 to |recs|
        invariant (View(), done) == S.Receive(cfg, old(View()), recs[..i])
      {
        assert recs[..i + 1][..i] == recs[..i];
        var ok := ReceiptFinalises(recs[i]);
        if ok {
          FinaliseReceipt(recs[i]);
          done := done + [recs[i]];
        }
      }
      assert recs[..|recs|] == recs;
    }

    method AbortPreparedGrant(a: AbortPrepared)
      modifies this`seqs, this`reservations, this`devMem, this`grantLedger
      ensures View() == S.AbortPending(old(View()), a)
    {
      var id := a.auth.sequence;
      if id !in seqs || seqs[id].pending.None? || seqs[id].pending.value.proposal != a.proposal {
        return;
      }
      WithdrawGrant(seqs[id].pending.value.grant);
      TakeBack(id);
    }

    method WithdrawGrant(g: nat)
      modifies this`grantLedger
      ensures grantLedger == if g in old(grantLedger) && old(grantLedger)[g].status == S.GRANT_PENDING
                             then old(grantLedger)[g := old(grantLedger)[g].(status := S.GRANT_ABORTED)]
                               else old(grantLedger)
    {
      if g in grantLedger && grantLedger[g].status == S.GRANT_PENDING {
        grantLedger := grantLedger[g := grantLedger[g].(status := S.GRANT_ABORTED)];
      }
    }

    /** Forgets the pending grant of a sequence and puts it back to waiting. */
    method TakeBack(id: nat)
      requires id in seqs
      modifies this`seqs, this`reservations, this`devMem
      ensures var s := old(seqs)[id];
        View() == S.PutReleased(old(View()), id, s.(pending := None, flight := s.flight.(active := false),
                                                    state := if s.state.Dispatched? || s.state.Running?
                                                             then MoveThrough(s.state, StepCompleted, Waiting)
                                                               else s.state))
    {
      seqs := seqs[id := seqs[id].(pending := None, flight := seqs[id].flight.(active := false))];
      ReleaseReservation(id);
      Requeue(id, Waiting);
      assert seqs == old(seqs)[id := seqs[id]];
    }
  }

  lemma PutTwice(f: S.FabricState, id: nat, s: S.Sequence, t: S.Sequence)
    ensures S.PutReleased(S.Put(f, id, s), id, t) == S.PutReleased(f, id, t)
  {
    assert f.seqs[id := s][id := t.(reservation := NULL)] == f.seqs[id := t.(reservation := NULL)];
  }

  /** Binding members to a dispatch does not change what is sent about any sequence. */
  lemma {:induction false} BindingKeepsSpecs(f: S.FabricState, members: seq<G.Candidate>, dispatch: nat, worker: nat,
                                             reservation: nat, id: nat)
    ensures var f' := S.BindAll(f, members, dispatch, worker, reservation);
      && (id in f.seqs <==> id in f'.seqs)
      && (id in f.seqs ==> S.SpecOf(id, f'.seqs[id]) == S.SpecOf(id, f.seqs[id]))
  {
    if members != [] {
      BindingKeepsSpecs(f, members[..|members| - 1], dispatch, worker, reservation, id);
    }
  }

  lemma {:induction false} SpecsSame(f: S.FabricState, f': S.FabricState, members: seq<G.Candidate>)
    requires f'.seqs == f.seqs
    ensures S.Specs(f', members) == S.Specs(f, members)
  {
    if members != [] {
      SpecsSame(f, f', members[..|members| - 1]);
    }
  }
}
