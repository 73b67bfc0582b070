/**
 What a snapshot keeps of the fabric, and what recovery makes of it. The bytes are
 in `Snapshot`; here a snapshot is the values it holds.
 */
module Recovery {
  import opened Types
  import opened Lifecycle
  import opened Fabric
  import opened FabricInvariants
  import opened MapSum

  /** The persisted fields of one sequence. */
  datatype SavedSequence = SavedSequence(
    request: nat, attempt: nat, tenant: nat, model: nat, revision: nat, promptLength: nat, maxGeneration: nat,
    budgetGenerated: nat, generation: nat, generated: nat, committed: nat, currentLength: nat,
    deadline: int, priority: nat, latencyClass: nat, state: SequenceState,
    stateId: nat, stateGeneration: nat, bytesHeld: nat, estimatedGrowth: nat, ownerTag: nat, attemptCount: nat,
    digest: nat, digestEstablished: bool, accepted: Option<AcceptedGeneration>)

  datatype Image = Image(
    epoch: nat, nextSequence: nat, nextDispatch: nat,
    seqs: map<nat, SavedSequence>, terminal: map<nat, SequenceState>, ledger: map<nat, GrantRecord>,
    receiptCount: nat)

  function Save(s: Sequence): SavedSequence {
    SavedSequence(s.req.id, s.attempt, s.req.tenant, s.req.model, s.req.revision, s.req.promptLength,
                  s.req.maxGeneration, s.tally.budget.generated, s.tally.generation, s.tally.generated,
                  s.tally.committed, s.tally.currentLength, s.req.deadline, s.req.priority, s.req.latencyClass,
                  s.state, s.kv.id, s.kv.generation, s.kv.bytesHeld, s.kv.estimatedGrowth, s.kv.ownerTag,
                  s.attemptCount, s.tally.digest, s.tally.digestEstablished, s.tally.accepted)
  }

  function ImageOf(f: FabricState): Image {
    Image(f.epoch, f.next.sequence, f.next.dispatch, map id | id in f.seqs :: Save(f.seqs[id]),
          f.terminal, f.ledger, f.stats.receiptCount)
  }

  /** Work that was in flight is put back to waiting, as far as the lifecycle allows it. */
  function Requeued(s: SequenceState): SequenceState {
    if s.Dispatched? || s.Running? || s.Reserved? || s.Grouped? || s.StepCompleted? || s.Cancelled?
      || s.DeadlineExpired?
    then Move(s, Waiting) else s
  }

  function Load(v: SavedSequence): Sequence {
    Sequence(
      DecodeRequest(v.request, NULL, v.tenant, v.model, v.revision, NULL, NULL, v.promptLength, v.maxGeneration, 0,
                    v.priority, 1.0, v.latencyClass, v.deadline, NULL, [], StateDescriptor(0, 0, 0, 0, 0, 0, 0)),
      Requeued(v.state), v.attempt, v.attemptCount,
      Tally(AdvancedBy(TokenBudget(v.maxGeneration, 0), v.budgetGenerated), v.currentLength, v.generated, v.committed,
            v.generation, v.digest, v.digestEstablished, v.accepted),
      Flight(NULL, NULL, 0, false), None, NULL,
      StateDescriptor(v.stateId, v.stateGeneration, 0, v.bytesHeld, v.estimatedGrowth, v.ownerTag, 0))
  }

  /** A grant that was pending when the snapshot was taken is dead. */
  function Withdrawn(gr: GrantRecord): GrantRecord {
    if gr.status == GRANT_PENDING then gr.(status := GRANT_ABORTED) else gr
  }

  function Steps(s: Sequence): nat {
    if s.tally.generation >= 1 then s.tally.generation - 1 else 0
  }

  function Generated(s: Sequence): nat {
    s.tally.generated
  }

  /** Recovery into a fabric: persisted fields are replaced, derived counters are recomputed. */
  ghost function Restore(into: FabricState, img: Image): FabricState {
    var seqs := map id | id in img.seqs :: Load(img.seqs[id]);
    into.(epoch := img.epoch, seqs := seqs, terminal := img.terminal,
          ledger := map g | g in img.ledger :: Withdrawn(img.ledger[g]),
          next := Counters(img.nextSequence, img.nextDispatch, into.next.grant),
          stats := into.stats.(receiptCount := img.receiptCount,
                               decodeSteps := Total(seqs, Steps),
                               generatedTokens := Total(seqs, Generated)))
  }

  /**
   A recovered sequence: saved again, it differs from what was saved only in the requeued
   state; its counters are whole, budget included, and nothing is in flight.
   */
  predicate RecoveredFrom(s: Sequence, t: Sequence) {
    && Save(t) == Save(s).(state := Requeued(s.state))
    && t.tally == s.tally && t.pending.None? && t.flight.dispatch == NULL && !t.flight.active && t.reservation == NULL
  }

  lemma LoadSaved(cfg: Config, s: Sequence)
    requires Lockstep(cfg, s)
    ensures RecoveredFrom(s, Load(Save(s)))
  {
    AdvancedBySaturates(TokenBudget(s.req.maxGeneration, 0), s.tally.budget.generated);
  }

  lemma RecoveredOk(cfg: Config, f: FabricState, f': FabricState, id: nat, s: Sequence, t: Sequence)
    requires SeqOk(cfg, f, id, s) && RecoveredFrom(s, t)
    requires f'.terminal == f.terminal && f'.next.dispatch == f.next.dispatch >= 1
    ensures SeqOk(cfg, f', id, t) && SeqStep(f.next.dispatch, s, t)
  {
  }

  /** Snapshot and recovery of a reachable fabric keep its invariant and lose no committed token. */
  lemma RestoreKeeps(cfg: Config, f: FabricState, into: FabricState)
    requires Inv(cfg, f)
    ensures var f' := Restore(into, ImageOf(f));
      && Inv(cfg, f') && Steady(f, f') && f'.seqs.Keys == f.seqs.Keys
      && (forall id | id in f.seqs :: RecoveredFrom(f.seqs[id], f'.seqs[id]))
  {
    AllRestored(cfg, f, Restore(into, ImageOf(f)));
  }

  lemma AllRestored(cfg: Config, f: FabricState, f': FabricState)
    requires Inv(cfg, f) && f'.terminal == f.terminal && f'.next.dispatch == f.next.dispatch
    requires f'.seqs.Keys == f.seqs.Keys && forall id | id in f.seqs :: f'.seqs[id] == Load(Save(f.seqs[id]))
    requires forall g | g in f'.ledger :: f'.ledger[g].grant.grant == g
    ensures Inv(cfg, f') && Steady(f, f') && forall id | id in f.seqs :: RecoveredFrom(f.seqs[id], f'.seqs[id])
  {
    forall id | id in f.seqs
      ensures RecoveredFrom(f.seqs[id], f'.seqs[id])
      ensures SeqOk(cfg, f', id, f'.seqs[id]) && SeqStep(f.next.dispatch, f.seqs[id], f'.seqs[id])
    {
      SequenceRestored(cfg, f, f', id);
    }
  }

  lemma SequenceRestored(cfg: Config, f: FabricState, f': FabricState, id: nat)
    requires Inv(cfg, f) && id in f.seqs && id in f'.seqs && f'.seqs[id] == Load(Save(f.seqs[id]))
    requires f'.terminal == f.terminal && f'.next.dispatch == f.next.dispatch
    ensures RecoveredFrom(f.seqs[id], f'.seqs[id])
    ensures SeqOk(cfg, f', id, f'.seqs[id]) && SeqStep(f.next.dispatch, f.seqs[id], f'.seqs[id])
  {
    assert SeqOk(cfg, f, id, f.seqs[id]);
    LoadSaved(cfg, f.seqs[id]);
    RecoveredOk(cfg, f, f', id, f.seqs[id], f'.seqs[id]);
  }
}
