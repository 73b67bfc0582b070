/** What single coordinator operations achieve, said without their bodies. */
module Effects {
  import opened Types
  import opened Lifecycle
  import opened Fabric
  import FI = FabricInvariants
  import R = Recovery

  /** Every sequence is visited. */
  predicate Visits(order: seq<nat>, f: FabricState) {
    forall id | id in f.seqs :: id in order
  }

  // ---------------------------------------------------------------------------
  // Boundary processing

  /** Nothing is left to do for the sequence at this boundary. */
  predicate Settled(now: int, s: Sequence) {
    && !s.state.CancelRequested?
    && (s.req.deadline != 0 && now >= s.req.deadline ==> !CanTransition(s.state, DeadlineExpired))
  }

  lemma SettleOne(f: FabricState, now: int, id: nat, k: nat)
    requires k in f.seqs && (k == id || Settled(now, f.seqs[k]))
    ensures k in Settle(f, now, id).seqs && Settled(now, Settle(f, now, id).seqs[k])
  {
    if k == id {
      SettledHere(f, now, id);
    }
  }

  lemma SettledHere(f: FabricState, now: int, id: nat)
    requires id in f.seqs
    ensures id in Settle(f, now, id).seqs && Settled(now, Settle(f, now, id).seqs[id])
  {
    EndMoves(f.seqs[id].state);
  }

  lemma {:induction false} AdvanceKeys(f: FabricState, now: int, order: seq<nat>)
    ensures Advance(f, now, order).seqs.Keys == f.seqs.Keys
  {
    if order != [] {
      AdvanceKeys(f, now, order[..|order| - 1]);
    }
  }

  lemma {:induction false} AdvanceVisits(f: FabricState, now: int, order: seq<nat>, id: nat)
    requires id in f.seqs && id in order
    ensures id in Advance(f, now, order).seqs && Settled(now, Advance(f, now, order).seqs[id])
  {
    var front := order[..|order| - 1];
    AdvanceKeys(f, now, front);
    if id in front {
      AdvanceVisits(f, now, front, id);
    }
    SettleOne(Advance(f, now, front), now, order[|order| - 1], id);
  }

  /** After a boundary no cancellation is outstanding, and whatever can expire has expired. */
  lemma AdvanceSettles(f: FabricState, now: int, order: seq<nat>)
    requires Visits(order, f)
    ensures forall id | id in Advance(f, now, order).seqs :: Settled(now, Advance(f, now, order).seqs[id])
  {
    AdvanceKeys(f, now, order);
    forall id | id in Advance(f, now, order).seqs ensures Settled(now, Advance(f, now, order).seqs[id]) {
      AdvanceVisits(f, now, order, id);
    }
  }

  // ---------------------------------------------------------------------------
  // Worker death

  predicate Off(worker: nat, s: Sequence) {
    !(s.flight.active && s.flight.worker == worker)
  }

  lemma OrphanOff(f: FabricState, worker: nat, id: nat, k: nat)
    requires k in f.seqs && (k == id || Off(worker, f.seqs[k]))
    ensures k in Orphan(f, worker, id).seqs && Off(worker, Orphan(f, worker, id).seqs[k])
  {
  }

  lemma {:induction false} OrphanKeys(f: FabricState, worker: nat, order: seq<nat>)
    ensures OrphanAll(f, worker, order).seqs.Keys == f.seqs.Keys && OrphanAll(f, worker, order).workers == f.workers
  {
    if order != [] {
      OrphanKeys(f, worker, order[..|order| - 1]);
    }
  }

  lemma {:induction false} OrphanVisits(f: FabricState, worker: nat, order: seq<nat>, id: nat)
    requires id in f.seqs && id in order
    ensures id in OrphanAll(f, worker, order).seqs && Off(worker, OrphanAll(f, worker, order).seqs[id])
  {
    var front := order[..|order| - 1];
    OrphanKeys(f, worker, front);
    if id in front {
      OrphanVisits(f, worker, front, id);
    }
    OrphanOff(OrphanAll(f, worker, front), worker, order[|order| - 1], id);
  }

  /** Nothing stays in flight on a dead worker, and it is given no more work. */
  lemma DeadWorkerCleared(f: FabricState, worker: nat, order: seq<nat>, k: CompatibilityKey)
    requires Visits(order, f)
    ensures var f' := MarkWorkerDead(f, worker, order);
      && (forall id | id in f'.seqs :: Off(worker, f'.seqs[id]))
      && (worker in f'.workers ==> !Fits(f'.workers[worker], k))
  {
    var f1 := if worker in f.workers
              then f.(workers := f.workers[worker := f.workers[worker].(health := FAILED, active := 0)]) else f;
    OrphanKeys(f1, worker, order);
    forall id | id in f1.seqs ensures Off(worker, OrphanAll(f1, worker, order).seqs[id]) {
      OrphanVisits(f1, worker, order, id);
    }
  }

  // ---------------------------------------------------------------------------
  // Placement

  /** The worker is healthy, has a place left, and offers the model and revision on the key's device. */
  predicate Able(f: FabricState, k: CompatibilityKey, w: nat) {
    && w in f.workers && f.workers[w].health == 1
    && (f.workers[w].advertised != 0 ==> f.workers[w].active < f.workers[w].advertised)
    && exists i | 0 <= i < |f.workers[w].models| :: var o := f.workers[w].models[i];
      o.model == k.model && o.revision == k.revision && o.device == k.device
  }

  /** The worker at place `i` can take the group; all before it that can are more loaded, all after it no less. */
  ghost predicate LeastLoaded(f: FabricState, workerOrder: seq<nat>, k: CompatibilityKey, i: nat) {
    && i < |workerOrder| && Able(f, k, workerOrder[i])
    && (forall j | 0 <= j < i && Able(f, k, workerOrder[j]) ::
      f.workers[workerOrder[i]].active < f.workers[workerOrder[j]].active)
    && (forall j | i <= j < |workerOrder| && Able(f, k, workerOrder[j]) ::
          f.workers[workerOrder[i]].active <= f.workers[workerOrder[j]].active)
  }

  /** A group goes to the first of the least loaded workers that can take it; it stays only if there is none. */
  lemma {:induction false} PlacedLeastLoaded(f: FabricState, workerOrder: seq<nat>, k: CompatibilityKey)
    ensures match Place(f, workerOrder, k)
      case Some(w) => exists i | 0 <= i < |workerOrder| && workerOrder[i] == w :: LeastLoaded(f, workerOrder, k, i)
      case None => forall j | 0 <= j < |workerOrder| :: !Able(f, k, workerOrder[j])
  {
    if workerOrder != [] {
      var front, last := workerOrder[..|workerOrder| - 1], |workerOrder| - 1;
      PlacedLeastLoaded(f, front, k);
      var best := Place(f, front, k);
      assert forall j | 0 <= j < last :: front[j] == workerOrder[j];
      if best.Some? {
        var i :| 0 <= i < last && front[i] == best.value && LeastLoaded(f, front, k, i);
        StillLeast(f, workerOrder, k, i);
      } else {
        assert Able(f, k, workerOrder[last]) ==> LeastLoaded(f, workerOrder, k, last);
      }
    }
  }

  lemma StillLeast(f: FabricState, workerOrder: seq<nat>, k: CompatibilityKey, i: nat)
    requires workerOrder != [] && LeastLoaded(f, workerOrder[..|workerOrder| - 1], k, i)
    ensures var last := |workerOrder| - 1;
      if Able(f, k, workerOrder[last]) && f.workers[workerOrder[last]].active < f.workers[workerOrder[i]].active
      then LeastLoaded(f, workerOrder, k, last) else LeastLoaded(f, workerOrder, k, i)
  {
    var front, last := workerOrder[..|workerOrder| - 1], |workerOrder| - 1;
    assert forall j | 0 <= j < last :: front[j] == workerOrder[j];
  }

  // ---------------------------------------------------------------------------
  // Recovery

  /** Recovery puts back exactly the states from which the lifecycle allows it; work that was out stays out. */
  lemma RequeuedExactly(s: SequenceState)
    ensures R.Requeued(s) != s <==> s.Grouped? || s.Reserved? || s.StepCompleted?
    ensures R.Requeued(s) != s ==> R.Requeued(s) == Waiting
  {
  }

  /** What a recovered sequence still has. */
  predicate Recalled(s: Sequence, t: Sequence) {
    && t.attempt == s.attempt && t.attemptCount == s.attemptCount && t.tally == s.tally
    && t.req.id == s.req.id && t.req.tenant == s.req.tenant && t.req.model == s.req.model
    && t.req.revision == s.req.revision && t.req.promptLength == s.req.promptLength
    && t.req.maxGeneration == s.req.maxGeneration && t.req.deadline == s.req.deadline
    && t.req.priority == s.req.priority && t.req.latencyClass == s.req.latencyClass
    && t.kv.id == s.kv.id && t.kv.generation == s.kv.generation && t.kv.bytesHeld == s.kv.bytesHeld
    && t.kv.estimatedGrowth == s.kv.estimatedGrowth && t.kv.ownerTag == s.kv.ownerTag
  }

  /** What it has forgotten: what it asked its worker for besides the model, and where it was out. */
  predicate Forgotten(t: Sequence) {
    && t.req.sampling == [] && t.req.adapter == NULL && t.req.deviceConstraint == NULL && t.req.tenantWeight == 1.0
    && t.kv.device == 0 && t.kv.accessVersion == 0
    && t.flight.dispatch == NULL && !t.flight.active && t.pending == None && t.reservation == NULL
  }

  /** What a recovery keeps, forgets and withdraws. */
  lemma RecoveredExactly(cfg: Config, f: FabricState, into: FabricState)
    requires FI.Inv(cfg, f)
    ensures var f' := R.Restore(into, R.ImageOf(f));
      && f'.seqs.Keys == f.seqs.Keys
      && (forall id | id in f.seqs :: Recalled(f.seqs[id], f'.seqs[id]) && Forgotten(f'.seqs[id]))
      && f'.epoch == f.epoch && f'.terminal == f.terminal && f'.next.sequence == f.next.sequence
      && f'.next.dispatch == f.next.dispatch && f'.next.grant == into.next.grant
      && f'.workers == into.workers && f'.boots == into.boots && f'.memory == into.memory
      && f'.ledger.Keys == f.ledger.Keys
      && (forall g | g in f.ledger ::
            && f'.ledger[g].grant == f.ledger[g].grant && f'.ledger[g].receipt == f.ledger[g].receipt
            && f'.ledger[g].status == if f.ledger[g].status == GRANT_PENDING then GRANT_ABORTED else f.ledger[g].status)
  {
    var f' := R.Restore(into, R.ImageOf(f));
    forall id | id in f.seqs ensures Recalled(f.seqs[id], f'.seqs[id]) && Forgotten(f'.seqs[id]) {
      FI.LockstepOf(cfg, f, id);
      R.LoadSaved(cfg, f.seqs[id]);
    }
  }
}
