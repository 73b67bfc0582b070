/**
 What every operation of the fabric keeps, and how one operation may change a sequence. Most
 operations are calm: they move no counter, no digest and no grant. Calm changes compose and
 keep the invariant, so an operation that visits many sequences is treated one sequence at
 a time.
 */
module FabricInvariants {
  import opened Types
  import opened Lifecycle
  import opened Fabric
  import M = Memory

  // ---------------------------------------------------------------------------
  // The invariant of one sequence

  /** All token counters move together, inside the budget. */
  predicate Lockstep(cfg: Config, s: Sequence) {
    var t := s.tally;
    && t.generated == t.committed == t.budget.generated <= t.budget.max == s.req.maxGeneration
    && t.currentLength == s.req.promptLength + t.committed
    && 1 <= t.generation <= t.committed + 1
    && (s.attemptCount <= 1 || s.attemptCount <= cfg.maxAttempts)
  }

  /** The ledger entry is unconsumed and binds exactly the current generation, position and digest. */
  predicate Binds(gr: GrantRecord, p: Pending, id: nat, t: Tally) {
    && gr.status == GRANT_PENDING
    && gr.grant.proposal == p.proposal
    && gr.grant.auth.sequence == id
    && gr.grant.auth.generation == t.generation
    && gr.grant.position == t.generated < t.budget.max
    && (t.digestEstablished ==> gr.grant.pre == t.digest)
  }

  predicate PendingOk(f: FabricState, id: nat, s: Sequence) {
    s.pending.Some? ==>
      && s.pending.value.grant in f.ledger && s.pending.value.grant < f.next.grant
      && f.ledger[s.pending.value.grant].grant.auth.dispatch < f.next.dispatch
      && Binds(f.ledger[s.pending.value.grant], s.pending.value, id, s.tally)
  }

  /** The accepted record is the receipt of the last finalised generation. */
  predicate AcceptedOk(id: nat, t: Tally) {
    && (t.digestEstablished <==> t.accepted.Some?)
    && (t.accepted.Some? ==>
          var a := t.accepted.value;
          && a.auth.sequence == id && a.auth.generation + 1 == t.generation
          && a.before + 1 == t.generated && a.post == t.digest)
  }

  predicate FlightOk(f: FabricState, s: Sequence) {
    && s.flight.dispatch < f.next.dispatch
    && (s.flight.dispatch != NULL ==>
          s.flight.generation == s.tally.generation && s.tally.generated < s.tally.budget.max)
  }

  predicate Recorded(f: FabricState, id: nat, s: Sequence) {
    Terminal(s.state) ==> id in f.terminal && f.terminal[id] == s.state
  }

  predicate SeqOk(cfg: Config, f: FabricState, id: nat, s: Sequence) {
    && Lockstep(cfg, s) && PendingOk(f, id, s) && AcceptedOk(id, s.tally) && FlightOk(f, s) && Recorded(f, id, s)
  }

  ghost predicate Inv(cfg: Config, f: FabricState) {
    && (forall id | id in f.seqs :: SeqOk(cfg, f, id, f.seqs[id]))
    && (forall g | g in f.ledger :: f.ledger[g].grant.grant == g)
    && 1 <= f.next.dispatch
  }

  // ---------------------------------------------------------------------------
  // How a sequence may change in one operation

  /** Nothing final, nothing lost: the relation between a sequence before and after any operation. */
  predicate SeqStep(nextDispatch: nat, s: Sequence, t: Sequence) {
    && t.kv.id == s.kv.id && t.req.maxGeneration == s.req.maxGeneration
    && s.tally.generated <= t.tally.generated
    && t.tally.generated + s.tally.generation == s.tally.generated + t.tally.generation
    && (t.flight.dispatch == s.flight.dispatch || t.flight.dispatch == NULL || t.flight.dispatch >= nextDispatch)
    && (t.flight.dispatch == s.flight.dispatch && s.flight.dispatch != NULL ==> t.tally == s.tally)
    && (Terminal(s.state) ==> t.state == s.state && t.tally == s.tally)
    && (Stopped(s.state) ==> Stopped(t.state) && t.tally == s.tally)
  }

  ghost predicate Evolves(f: FabricState, f': FabricState) {
    && f.next.dispatch <= f'.next.dispatch
    && (forall id | id in f.seqs :: id in f'.seqs && SeqStep(f.next.dispatch, f.seqs[id], f'.seqs[id]))
  }

  /** No sequence gains or loses a token. */
  ghost predicate Steady(f: FabricState, f': FabricState) {
    Evolves(f, f') && forall id | id in f.seqs :: f'.seqs[id].tally == f.seqs[id].tally
  }

  lemma SteadyTrans(cfg: Config, a: FabricState, b: FabricState, c: FabricState)
    requires Inv(cfg, a) && Steady(a, b) && Steady(b, c)
    ensures Steady(a, c)
  {
    EvolvesTrans(cfg, a, b, c);
  }

  lemma EvolvesTrans(cfg: Config, a: FabricState, b: FabricState, c: FabricState)
    requires Inv(cfg, a) && Evolves(a, b) && Evolves(b, c)
    ensures Evolves(a, c)
  {
    forall id | id in a.seqs
      ensures id in c.seqs && SeqStep(a.next.dispatch, a.seqs[id], c.seqs[id])
    {
      assert SeqOk(cfg, a, id, a.seqs[id]);
      assert SeqStep(a.next.dispatch, a.seqs[id], b.seqs[id]) && SeqStep(b.next.dispatch, b.seqs[id], c.seqs[id]);
    }
  }

  // ---------------------------------------------------------------------------
  // Calm changes: neither a dispatch, nor a grant, nor a receipt

  predicate CalmSeq(cfg: Config, s: Sequence, t: Sequence) {
    && t.req == s.req && t.kv == s.kv && t.tally == s.tally
    && (t.flight.dispatch == s.flight.dispatch || t.flight.dispatch == NULL)
    && t.flight.generation == s.flight.generation
    && (t.pending == s.pending || t.pending.None?)
    && (t.attemptCount == s.attemptCount || t.attemptCount <= cfg.maxAttempts)
    && (Terminal(s.state) ==> t.state == s.state) && (Stopped(s.state) ==> Stopped(t.state))
  }

  /** Device counters match the live reservations, and every worker's device is known. */
  ghost predicate MemoryOk(f: FabricState) {
    M.Balanced(f.memory) && forall w | w in f.workers :: f.workers[w].device.id in f.memory.devices
  }

  ghost predicate MemoryKept(f: FabricState, f': FabricState) {
    MemoryOk(f) ==> MemoryOk(f')
  }

  lemma ReleaseKeepsMemory(f: FabricState, f': FabricState, r: nat)
    requires f'.memory == M.Release(f.memory, r) && f'.workers == f.workers
    ensures MemoryKept(f, f')
  {
    if MemoryOk(f) {
      M.ReleaseBalanced(f.memory, r);
    }
  }

  ghost predicate Calm(cfg: Config, f: FabricState, f': FabricState) {
    && f'.seqs.Keys == f.seqs.Keys && MemoryKept(f, f')
    && f'.ledger == f.ledger && f'.next == f.next && f'.stats == f.stats
    && (forall id | id in f.seqs :: CalmSeq(cfg, f.seqs[id], f'.seqs[id]))
    && (forall id | id in f.seqs :: Recorded(f, id, f.seqs[id]) ==> Recorded(f', id, f'.seqs[id]))
  }

  lemma CalmTrans(cfg: Config, a: FabricState, b: FabricState, c: FabricState)
    requires Calm(cfg, a, b) && Calm(cfg, b, c)
    ensures Calm(cfg, a, c)
  {
    forall id | id in a.seqs
      ensures CalmSeq(cfg, a.seqs[id], c.seqs[id])
      ensures Recorded(a, id, a.seqs[id]) ==> Recorded(c, id, c.seqs[id])
    {
      assert CalmSeq(cfg, a.seqs[id], b.seqs[id]) && CalmSeq(cfg, b.seqs[id], c.seqs[id]);
      assert Recorded(a, id, a.seqs[id]) ==> Recorded(b, id, b.seqs[id]);
    }
  }

  lemma CalmKeeps(cfg: Config, f: FabricState, f': FabricState)
    requires Inv(cfg, f) && Calm(cfg, f, f')
    ensures Inv(cfg, f') && Steady(f, f')
  {
    forall id | id in f.seqs
      ensures SeqOk(cfg, f', id, f'.seqs[id]) && SeqStep(f.next.dispatch, f.seqs[id], f'.seqs[id])
    {
      assert SeqOk(cfg, f, id, f.seqs[id]) && CalmSeq(cfg, f.seqs[id], f'.seqs[id]);
    }
  }

  /** A calm change of one sequence is a calm change of the fabric. */
  lemma CalmOne(cfg: Config, f: FabricState, f': FabricState, id: nat, released: nat)
    requires f'.memory == M.Release(f.memory, released) && f'.workers == f.workers
    requires id in f.seqs && id in f'.seqs && f'.seqs == f.seqs[id := f'.seqs[id]]
    requires f'.ledger == f.ledger && f'.next == f.next && f'.stats == f.stats
    requires CalmSeq(cfg, f.seqs[id], f'.seqs[id])
    requires Recorded(f, id, f.seqs[id]) ==> Recorded(f', id, f'.seqs[id])
    requires forall k | k in f.terminal && k != id :: k in f'.terminal && f'.terminal[k] == f.terminal[k]
    ensures Calm(cfg, f, f')
  {
    ReleaseKeepsMemory(f, f', released);
  }

  lemma CloseCalm(cfg: Config, f: FabricState, id: nat, to: SequenceState)
    requires id in f.seqs && !Terminal(f.seqs[id].state) && Terminal(to)
    ensures Calm(cfg, f, Close(f, id, to))
  {
    CalmOne(cfg, f, Close(f, id, to), id, f.seqs[id].reservation);
  }

  lemma CancelCalm(cfg: Config, f: FabricState, id: nat)
    ensures Calm(cfg, f, Cancel(f, id))
  {
    if id in f.seqs && !Terminal(f.seqs[id].state) && !f.seqs[id].state.CancelRequested? {
      var s := f.seqs[id];
      if s.state.Dispatched? || s.state.Running? || s.state.Reserved? || s.state.Grouped? {
        CalmOne(cfg, f, Cancel(f, id), id, NULL);
      } else {
        CloseCalm(cfg, f, id, Cancelled);
      }
    }
  }

  lemma SettleCalm(cfg: Config, f: FabricState, now: int, id: nat)
    ensures Calm(cfg, f, Settle(f, now, id))
  {
    if id in f.seqs && !Terminal(f.seqs[id].state) {
      CloseCalm(cfg, f, id, DeadlineExpired);
      CloseCalm(cfg, f, id, Cancelled);
    }
  }

  lemma {:induction false} AdvanceCalm(cfg: Config, f: FabricState, now: int, order: seq<nat>)
    ensures Calm(cfg, f, Advance(f, now, order))
  {
    if order != [] {
      var f1 := Advance(f, now, order[..|order| - 1]);
      AdvanceCalm(cfg, f, now, order[..|order| - 1]);
      SettleCalm(cfg, f1, now, order[|order| - 1]);
      CalmTrans(cfg, f, f1, Advance(f, now, order));
    }
  }

  lemma LockstepOf(cfg: Config, f: FabricState, id: nat)
    requires Inv(cfg, f) && id in f.seqs
    ensures Lockstep(cfg, f.seqs[id])
  {
    assert SeqOk(cfg, f, id, f.seqs[id]);
  }

  lemma GivenUpCalm(cfg: Config, f: FabricState, id: nat)
    requires id in f.seqs && !Terminal(f.seqs[id].state) && f.seqs[id].attemptCount >= cfg.maxAttempts
    ensures Calm(cfg, f, TryAgain(cfg, f, id, id))
  {
    CalmOne(cfg, f, TryAgain(cfg, f, id, id), id, NULL);
  }

  /** A new attempt keeps every counter, the committed digest and any pending grant. */
  lemma TryAgainCalm(cfg: Config, f: FabricState, id: nat)
    requires id in f.seqs && !Terminal(f.seqs[id].state)
    ensures Calm(cfg, f, TryAgain(cfg, f, id, id))
  {
    if f.seqs[id].attemptCount >= cfg.maxAttempts {
      GivenUpCalm(cfg, f, id);
    } else {
      CalmOne(cfg, f, Put(f, id, Renewed(f, f.seqs[id])), id, NULL);
    }
  }

  lemma RetryCalm(cfg: Config, f: FabricState, id: nat)
    requires Inv(cfg, f)
    ensures Calm(cfg, f, Retry(cfg, f, id))
  {
    if id in f.seqs && Retryable(f.seqs[id].state) {
      var s := f.seqs[id];
      LockstepOf(cfg, f, id);
      assert s.(tally := s.tally.(generated := s.tally.committed)) == s;
      assert Put(f, id, s) == f;
      TryAgainCalm(cfg, f, id);
    }
  }

  lemma OrphanCalm(cfg: Config, f: FabricState, worker: nat, id: nat)
    ensures Calm(cfg, f, Orphan(f, worker, id))
  {
    if id in f.seqs && f.seqs[id].flight.active && f.seqs[id].flight.worker == worker {
      CalmOne(cfg, f, Orphan(f, worker, id), id, f.seqs[id].reservation);
    }
  }

  lemma {:induction false} OrphanAllCalm(cfg: Config, f: FabricState, worker: nat, order: seq<nat>)
    ensures Calm(cfg, f, OrphanAll(f, worker, order))
  {
    if order != [] {
      var f1 := OrphanAll(f, worker, order[..|order| - 1]);
      OrphanAllCalm(cfg, f, worker, order[..|order| - 1]);
      OrphanCalm(cfg, f1, worker, order[|order| - 1]);
      CalmTrans(cfg, f, f1, OrphanAll(f, worker, order));
    }
  }

  lemma MarkWorkerDeadCalm(cfg: Config, f: FabricState, worker: nat, order: seq<nat>)
    ensures Calm(cfg, f, MarkWorkerDead(f, worker, order))
  {
    var f1 := if worker in f.workers
              then f.(workers := f.workers[worker := f.workers[worker].(health := FAILED, active := 0)]) else f;
    OrphanAllCalm(cfg, f1, worker, order);
    CalmTrans(cfg, f, f1, OrphanAll(f1, worker, order));
  }

  lemma ReconcileCalm(cfg: Config, f: FabricState, id: nat)
    requires id in f.seqs
    ensures Calm(cfg, f, Reconcile(f, id))
  {
    CalmOne(cfg, f, Reconcile(f, id), id, f.seqs[id].reservation);
  }

  lemma LandedCalm(cfg: Config, f: FabricState, id: nat)
    requires id in f.seqs
    ensures Calm(cfg, f, Landed(f, id))
  {
    CalmOne(cfg, f, Landed(f, id), id, f.seqs[id].reservation);
  }

  lemma ReleasedCalm(cfg: Config, f: FabricState, id: nat)
    requires id in f.seqs
    ensures Calm(cfg, f, PutReleased(f, id, f.seqs[id]))
    ensures Calm(cfg, f, PutReleased(f, id, f.seqs[id].(flight := f.seqs[id].flight.(active := false))))
  {
    CalmOne(cfg, f, PutReleased(f, id, f.seqs[id]), id, f.seqs[id].reservation);
    CalmOne(cfg, f, PutReleased(f, id, f.seqs[id].(flight := f.seqs[id].flight.(active := false))), id,
      f.seqs[id].reservation);
  }

  /** Rolling back to the committed point changes nothing. */
  lemma FailedStepCalm(cfg: Config, f: FabricState, id: nat)
    requires Inv(cfg, f) && id in f.seqs && !Terminal(f.seqs[id].state)
    ensures CalmSeq(cfg, f.seqs[id], FailedStep(cfg, f.seqs[id]))
    ensures !Terminal(FailedStep(cfg, f.seqs[id]).state)
  {
    var s := f.seqs[id];
    LockstepOf(cfg, f, id);
    AdvancedBySaturates(TokenBudget(s.req.maxGeneration, 0), s.tally.committed);
  }

  lemma FailedStepPutCalm(cfg: Config, f: FabricState, id: nat)
    requires Inv(cfg, f) && id in f.seqs && !Terminal(f.seqs[id].state)
    ensures Calm(cfg, f, Put(f, id, FailedStep(cfg, f.seqs[id])))
  {
    FailedStepCalm(cfg, f, id);
    CalmOne(cfg, f, Put(f, id, FailedStep(cfg, f.seqs[id])), id, NULL);
  }

  lemma RetryableOutcomeCalm(cfg: Config, f: FabricState, id: nat)
    requires Inv(cfg, f) && id in f.seqs && !Terminal(f.seqs[id].state)
    ensures Calm(cfg, f, RetryableOutcome(cfg, f, id, id))
  {
    var f1 := PutReleased(f, id, f.seqs[id]);
    ReleasedCalm(cfg, f, id);
    CalmKeeps(cfg, f, f1);
    FailedStepPutCalm(cfg, f1, id);
    FailedStepCalm(cfg, f1, id);
    var f2 := Put(f1, id, FailedStep(cfg, f1.seqs[id]));
    CalmTrans(cfg, f, f1, f2);
    TryAgainCalm(cfg, f2, id);
    CalmTrans(cfg, f, f2, TryAgain(cfg, f2, id, id));
  }

  lemma YieldOutcomeCalm(cfg: Config, f: FabricState, id: nat)
    requires id in f.seqs && !Terminal(f.seqs[id].state)
    ensures Calm(cfg, f, YieldOutcome(f, id))
  {
    CalmOne(cfg, f, YieldOutcome(f, id), id, NULL);
  }

  lemma FatalOutcomeCalm(cfg: Config, f: FabricState, id: nat)
    requires id in f.seqs && !Terminal(f.seqs[id].state)
    ensures Calm(cfg, f, FatalOutcome(f, id, id))
  {
    CalmOne(cfg, f, FatalOutcome(f, id, id), id, NULL);
  }

  lemma EndOutcomeCalm(cfg: Config, f: FabricState, id: nat, to: SequenceState)
    requires id in f.seqs && Terminal(to)
    ensures Calm(cfg, f, EndOutcome(f, id, id, to))
  {
    if !Terminal(f.seqs[id].state) {
      CalmOne(cfg, f, EndOutcome(f, id, id, to), id, NULL);
    }
  }

  lemma ApplyOutcomeCalm(cfg: Config, f: FabricState, id: nat, mo: MemberOutcome)
    requires Inv(cfg, f) && id in f.seqs && !Terminal(f.seqs[id].state) && mo.sequence == id
    ensures Calm(cfg, f, ApplyOutcome(cfg, f, id, mo))
  {
    if mo.kind == YIELDED { YieldOutcomeCalm(cfg, f, id); }
    else if mo.kind == RETRYABLE_FAILURE { RetryableOutcomeCalm(cfg, f, id); }
    else if mo.kind == NON_RETRYABLE_FAILURE { FatalOutcomeCalm(cfg, f, id); }
    else if mo.kind == OUTCOME_CANCELLED { EndOutcomeCalm(cfg, f, id, Cancelled); }
    else if mo.kind == OUTCOME_EXPIRED { EndOutcomeCalm(cfg, f, id, DeadlineExpired); }
  }

  lemma LandedOutcomeCalm(cfg: Config, f: FabricState, id: nat, mo: MemberOutcome)
    requires Inv(cfg, f) && id in f.seqs && !Terminal(f.seqs[id].state) && mo.sequence == id
    ensures Calm(cfg, f, ApplyOutcome(cfg, Landed(f, id), id, mo))
  {
    LandedCalm(cfg, f, id);
    CalmKeeps(cfg, f, Landed(f, id));
    ApplyOutcomeCalm(cfg, Landed(f, id), id, mo);
    CalmTrans(cfg, f, Landed(f, id), ApplyOutcome(cfg, Landed(f, id), id, mo));
  }

  lemma CompleteMemberCalm(cfg: Config, f: FabricState, result: ExecutionResult, mo: MemberOutcome)
    requires Inv(cfg, f)
    ensures Calm(cfg, f, CompleteMember(cfg, f, result, mo))
  {
    var id, f' := mo.sequence, CompleteMember(cfg, f, result, mo);
    if id in f.seqs && f' != f {
      if result.epoch != f.epoch || f.seqs[id].state.CancelRequested? {
        ReleasedCalm(cfg, f, id);
      } else {
        LandedOutcomeCalm(cfg, f, id, mo);
      }
    }
  }

  /** A bare completion never advances a sequence. */
  lemma {:induction false} CompleteCalm(cfg: Config, f: FabricState, result: ExecutionResult, n: nat)
    requires Inv(cfg, f) && n <= |result.outcomes|
    ensures Calm(cfg, f, Complete(cfg, f, result, n))
  {
    if n > 0 {
      var f1 := Complete(cfg, f, result, n - 1);
      CompleteCalm(cfg, f, result, n - 1);
      CalmKeeps(cfg, f, f1);
      CompleteMemberCalm(cfg, f1, result, result.outcomes[n - 1]);
      CalmTrans(cfg, f, f1, Complete(cfg, f, result, n));
    }
  }
}
