/**
 What every operation of the coordinator leaves as it was. While a sequence stays out on one
 dispatch and is not failing, its attempt stays; a dispatch that is over does not come back;
 epochs do not go back, an end that is on record stays on record, and no operation but the
 receipt of a token completes a sequence that has tokens left.
 */
module Courses {
  import opened Types
  import opened Lifecycle
  import opened Fabric
  import opened FabricInvariants
  import A = Answers
  import FS = FabricSteps
  import G = Grouping
  import O = Operations
  import R = Recovery
  import RP = Replay
  import PG = PumpGroup
  import PS = PumpSchedule

  /** Dispatch ids from `floor` on are new. */
  predicate SeqCourse(floor: nat, s: Sequence, t: Sequence) {
    && (t.flight.dispatch == s.flight.dispatch || t.flight.dispatch == NULL || t.flight.dispatch >= floor)
    && (t.flight.dispatch == s.flight.dispatch != NULL && !Retryable(s.state) ==>
          t.attempt == s.attempt && !Retryable(t.state))
  }

  ghost predicate Turn(floor: nat, f: FabricState, f': FabricState) {
    && f.epoch <= f'.epoch && f.next.dispatch <= f'.next.dispatch
    && f.terminal.Keys <= f'.terminal.Keys <= f.terminal.Keys + f.seqs.Keys
    && (forall id | id in f.seqs :: id in f'.seqs && SeqCourse(floor, f.seqs[id], f'.seqs[id]))
  }

  predicate UsedUp(s: Sequence) {
    s.tally.budget.Exhausted()
  }

  /** Completed by nothing but its budget. */
  predicate SeqQuiet(s: Sequence, t: Sequence) {
    (t.state.Completed? ==> s.state.Completed?) && (UsedUp(s) ==> UsedUp(t))
  }

  predicate Completed(f: FabricState, id: nat) {
    id in f.terminal && f.terminal[id].Completed?
  }

  ghost predicate Quiet(f: FabricState, f': FabricState) {
    && (forall id | id in f.seqs :: id in f'.seqs && SeqQuiet(f.seqs[id], f'.seqs[id]))
    && (forall id | id in f.seqs && Completed(f', id) :: id in f'.seqs && (Completed(f, id) || UsedUp(f'.seqs[id])))
  }

  /** Boots change by registration and recovery only. */
  ghost predicate Course(floor: nat, f: FabricState, f': FabricState) {
    Turn(floor, f, f') && Quiet(f, f') && f'.boots == f.boots && f'.seqs.Keys == f.seqs.Keys
  }

  /** Everything out is out on an earlier dispatch. */
  ghost predicate Below(floor: nat, f: FabricState) {
    forall id | id in f.seqs :: f.seqs[id].flight.dispatch < floor
  }

  lemma TurnTrans(floor: nat, a: FabricState, b: FabricState, c: FabricState)
    requires Below(floor, a) && Turn(floor, a, b) && Turn(floor, b, c) && b.seqs.Keys == a.seqs.Keys
    ensures Turn(floor, a, c)
  {
    forall id | id in a.seqs ensures id in c.seqs && SeqCourse(floor, a.seqs[id], c.seqs[id]) {
      assert SeqCourse(floor, a.seqs[id], b.seqs[id]) && SeqCourse(floor, b.seqs[id], c.seqs[id]);
    }
  }

  lemma QuietTrans(a: FabricState, b: FabricState, c: FabricState)
    requires Quiet(a, b) && Quiet(b, c)
    ensures Quiet(a, c)
  {
    forall id | id in a.seqs
      ensures id in c.seqs && SeqQuiet(a.seqs[id], c.seqs[id])
        && (Completed(c, id) ==> Completed(a, id) || UsedUp(c.seqs[id]))
    {
      assert SeqQuiet(a.seqs[id], b.seqs[id]) && SeqQuiet(b.seqs[id], c.seqs[id]);
    }
  }

  lemma CourseTrans(floor: nat, a: FabricState, b: FabricState, c: FabricState)
    requires Below(floor, a) && Course(floor, a, b) && Course(floor, b, c)
    ensures Course(floor, a, c)
  {
    TurnTrans(floor, a, b, c);
    QuietTrans(a, b, c);
  }

  /** One sequence changes, and its record at most. */
  lemma CourseOne(floor: nat, f: FabricState, f': FabricState, id: nat)
    requires id in f.seqs && id in f'.seqs && f'.seqs == f.seqs[id := f'.seqs[id]]
    requires f'.epoch == f.epoch && f'.boots == f.boots && f'.next.dispatch == f.next.dispatch
    requires f'.terminal == f.terminal || (id in f'.terminal && f'.terminal == f.terminal[id := f'.terminal[id]])
    requires SeqCourse(floor, f.seqs[id], f'.seqs[id]) && SeqQuiet(f.seqs[id], f'.seqs[id])
    requires Completed(f', id) ==> Completed(f, id) || UsedUp(f'.seqs[id])
    ensures Course(floor, f, f')
  {
  }

  // ---------------------------------------------------------------------------
  // Single sequences

  lemma CloseCourse(floor: nat, f: FabricState, id: nat, to: SequenceState)
    requires id in f.seqs && Terminal(to) && (to.Completed? ==> UsedUp(f.seqs[id]) && Candidate(f.seqs[id].state))
    ensures Course(floor, f, Close(f, id, to))
  {
    CourseOne(floor, f, Close(f, id, to), id);
  }

  lemma CancelCourse(floor: nat, f: FabricState, id: nat)
    ensures Course(floor, f, Cancel(f, id))
  {
    if id in f.seqs {
      CloseCourse(floor, f, id, Cancelled);
      var f' := Cancel(f, id);
      CourseOne(floor, f, Put(f, id, f.seqs[id].(state := Move(f.seqs[id].state, CancelRequested))), id);
    }
  }

  lemma SettleCourse(floor: nat, f: FabricState, now: int, id: nat)
    ensures Course(floor, f, Settle(f, now, id))
  {
    if id in f.seqs {
      CloseCourse(floor, f, id, DeadlineExpired);
      CloseCourse(floor, f, id, Cancelled);
    }
  }

  lemma {:induction false} AdvanceCourse(floor: nat, f: FabricState, now: int, order: seq<nat>)
    requires Below(floor, f)
    ensures Course(floor, f, Advance(f, now, order))
  {
    if order != [] {
      var f1 := Advance(f, now, order[..|order| - 1]);
      AdvanceCourse(floor, f, now, order[..|order| - 1]);
      SettleCourse(floor, f1, now, order[|order| - 1]);
      CourseTrans(floor, f, f1, Settle(f1, now, order[|order| - 1]));
    }
  }

  /** A new attempt is made only of a failing sequence, or one that is out on nothing. */
  lemma TryAgainCourse(floor: nat, cfg: Config, f: FabricState, id: nat)
    requires id in f.seqs && (Retryable(f.seqs[id].state) || f.seqs[id].flight.dispatch == NULL)
    ensures Course(floor, f, TryAgain(cfg, f, id, id))
  {
    CourseOne(floor, f, TryAgain(cfg, f, id, id), id);
  }

  lemma RetryCourse(floor: nat, cfg: Config, f: FabricState, id: nat)
    requires Inv(cfg, f)
    ensures Course(floor, f, Retry(cfg, f, id))
  {
    if id in f.seqs && A.Failing(f.seqs[id].state) {
      LockstepOf(cfg, f, id);
      A.RetryIs(cfg, f, id);
      TryAgainCourse(floor, cfg, f, id);
    } else {
      A.RetryIgnored(cfg, f, id);
    }
  }

  lemma OrphanCourse(floor: nat, f: FabricState, worker: nat, id: nat)
    ensures Course(floor, f, Orphan(f, worker, id))
  {
    if id in f.seqs {
      var f' := Orphan(f, worker, id);
      CourseOne(floor, f, f', id);
    }
  }

  lemma {:induction false} OrphanAllCourse(floor: nat, f: FabricState, worker: nat, order: seq<nat>)
    requires Below(floor, f)
    ensures Course(floor, f, OrphanAll(f, worker, order))
  {
    if order != [] {
      var f1 := OrphanAll(f, worker, order[..|order| - 1]);
      OrphanAllCourse(floor, f, worker, order[..|order| - 1]);
      OrphanCourse(floor, f1, worker, order[|order| - 1]);
      CourseTrans(floor, f, f1, Orphan(f1, worker, order[|order| - 1]));
    }
  }

  lemma DeadCourse(floor: nat, f: FabricState, worker: nat, order: seq<nat>)
    requires Below(floor, f)
    ensures Course(floor, f, MarkWorkerDead(f, worker, order))
  {
    var f1 := if worker in f.workers
              then f.(workers := f.workers[worker := f.workers[worker].(health := FAILED, active := 0)]) else f;
    OrphanAllCourse(floor, f1, worker, order);
  }

  lemma ReconcileCourse(floor: nat, f: FabricState, id: nat)
    requires id in f.seqs
    ensures Course(floor, f, Reconcile(f, id))
  {
    CourseOne(floor, f, Reconcile(f, id), id);
  }

  // ---------------------------------------------------------------------------
  // Outcomes

  lemma LandedCourse(floor: nat, f: FabricState, id: nat)
    requires id in f.seqs
    ensures Course(floor, f, Landed(f, id)) && id in Landed(f, id).seqs
    ensures Landed(f, id).seqs[id].flight.dispatch == NULL
    ensures Below(floor, f) ==> Below(floor, Landed(f, id))
  {
    CourseOne(floor, f, Landed(f, id), id);
  }

  lemma FailedCourse(floor: nat, cfg: Config, f: FabricState, id: nat)
    requires id in f.seqs && f.seqs[id].flight.dispatch == NULL && Lockstep(cfg, f.seqs[id])
    ensures Course(floor, f, Put(f, id, FailedStep(cfg, f.seqs[id])))
  {
    AdvancedBySaturates(TokenBudget(f.seqs[id].req.maxGeneration, 0), f.seqs[id].tally.committed);
    CourseOne(floor, f, Put(f, id, FailedStep(cfg, f.seqs[id])), id);
  }

  lemma RetryableCourse(floor: nat, cfg: Config, f: FabricState, id: nat)
    requires id in f.seqs && f.seqs[id].flight.dispatch == NULL && Below(floor, f) && Lockstep(cfg, f.seqs[id])
    ensures Course(floor, f, RetryableOutcome(cfg, f, id, id))
  {
    var f1 := PutReleased(f, id, f.seqs[id]);
    CourseOne(floor, f, f1, id);
    FailedCourse(floor, cfg, f1, id);
    var f2 := Put(f1, id, FailedStep(cfg, f1.seqs[id]));
    CourseTrans(floor, f, f1, f2);
    TryAgainCourse(floor, cfg, f2, id);
    CourseTrans(floor, f, f2, TryAgain(cfg, f2, id, id));
  }

  lemma YieldCourse(floor: nat, f: FabricState, id: nat)
    requires id in f.seqs && f.seqs[id].flight.dispatch == NULL
    ensures Course(floor, f, YieldOutcome(f, id))
  {
    CourseOne(floor, f, YieldOutcome(f, id), id);
  }

  lemma FatalCourse(floor: nat, f: FabricState, id: nat)
    requires id in f.seqs && f.seqs[id].flight.dispatch == NULL
    ensures Course(floor, f, FatalOutcome(f, id, id))
  {
    CourseOne(floor, f, FatalOutcome(f, id, id), id);
  }

  lemma OutcomeCourse(floor: nat, cfg: Config, f: FabricState, id: nat, mo: MemberOutcome)
    requires id in f.seqs && f.seqs[id].flight.dispatch == NULL && Below(floor, f) && mo.sequence == id
      && Lockstep(cfg, f.seqs[id])
    ensures Course(floor, f, ApplyOutcome(cfg, f, id, mo))
  {
    if mo.kind == YIELDED {
      YieldCourse(floor, f, id);
    } else if mo.kind == RETRYABLE_FAILURE {
      RetryableCourse(floor, cfg, f, id);
    } else if mo.kind == NON_RETRYABLE_FAILURE {
      FatalCourse(floor, f, id);
    } else if mo.kind == OUTCOME_CANCELLED {
      EndCourse(floor, f, id, Cancelled);
    } else if mo.kind == OUTCOME_EXPIRED {
      EndCourse(floor, f, id, DeadlineExpired);
    }
  }

  lemma EndCourse(floor: nat, f: FabricState, id: nat, to: SequenceState)
    requires id in f.seqs && f.seqs[id].flight.dispatch == NULL && !to.Completed?
    ensures Course(floor, f, EndOutcome(f, id, id, to))
  {
    if !Terminal(f.seqs[id].state) {
      CourseOne(floor, f, EndOutcome(f, id, id, to), id);
    }
  }

  lemma LandedOutcomeCourse(floor: nat, cfg: Config, f: FabricState, id: nat, mo: MemberOutcome)
    requires Inv(cfg, f) && id in f.seqs && Below(floor, f) && mo.sequence == id
    ensures Course(floor, f, ApplyOutcome(cfg, Landed(f, id), id, mo))
  {
    var f1 := Landed(f, id);
    LandedCourse(floor, f, id);
    LockstepOf(cfg, f, id);
    OutcomeCourse(floor, cfg, f1, id, mo);
    CourseTrans(floor, f, f1, ApplyOutcome(cfg, f1, id, mo));
  }

  lemma CompleteIs(cfg: Config, f: FabricState, result: ExecutionResult, mo: MemberOutcome) returns (f': FabricState)
    ensures f' == CompleteMember(cfg, f, result, mo)
    ensures || f' == f
            || (mo.sequence in f.seqs && f' == Parked(f, mo.sequence))
            || (mo.sequence in f.seqs && f' == ApplyOutcome(cfg, Landed(f, mo.sequence), mo.sequence, mo))
  {
    f' := CompleteMember(cfg, f, result, mo);
  }

  /** In flight no more, and otherwise as it was. */
  function Parked(f: FabricState, id: nat): FabricState
    requires id in f.seqs
  {
    PutReleased(f, id, f.seqs[id].(flight := f.seqs[id].flight.(active := false)))
  }

  lemma CompleteMemberCourse(floor: nat, cfg: Config, f: FabricState, result: ExecutionResult, mo: MemberOutcome)
    returns (f': FabricState)
    requires Inv(cfg, f) && Below(floor, f)
    ensures f' == CompleteMember(cfg, f, result, mo) && Course(floor, f, f')
  {
    f' := CompleteIs(cfg, f, result, mo);
    if f' == f {
    } else if f' == Parked(f, mo.sequence) {
      GroundedCourse(floor, f, mo.sequence);
    } else {
      LandedOutcomeCourse(floor, cfg, f, mo.sequence, mo);
    }
  }

  lemma GroundedCourse(floor: nat, f: FabricState, id: nat)
    requires id in f.seqs
    ensures Course(floor, f, Parked(f, id))
  {
    CourseOne(floor, f, Parked(f, id), id);
  }

  lemma CompleteOneCourse(floor: nat, cfg: Config, f: FabricState, result: ExecutionResult, mo: MemberOutcome)
    returns (f': FabricState)
    requires Inv(cfg, f) && floor == f.next.dispatch
    ensures f' == CompleteMember(cfg, f, result, mo) && Course(floor, f, f') && Inv(cfg, f') && f'.next == f.next
  {
    InvBelow(cfg, f);
    f' := CompleteMemberCourse(floor, cfg, f, result, mo);
    CompleteMemberCalm(cfg, f, result, mo);
    CalmKeeps(cfg, f, f');
  }

  lemma {:induction false} CompleteCourse(floor: nat, cfg: Config, f: FabricState, result: ExecutionResult, n: nat)
    returns (f': FabricState)
    requires Inv(cfg, f) && floor == f.next.dispatch && n <= |result.outcomes|
    ensures f' == Complete(cfg, f, result, n) && Course(floor, f, f') && Inv(cfg, f') && f'.next == f.next
  {
    f' := f;
    if n > 0 {
      var f1 := CompleteCourse(floor, cfg, f, result, n - 1);
      f' := CompleteOneCourse(floor, cfg, f1, result, result.outcomes[n - 1]);
      CourseTrans(floor, f, f1, f');
    }
  }

  lemma InvBelow(cfg: Config, f: FabricState)
    requires Inv(cfg, f)
    ensures Below(f.next.dispatch, f)
  {
    forall id | id in f.seqs ensures f.seqs[id].flight.dispatch < f.next.dispatch {
      assert SeqOk(cfg, f, id, f.seqs[id]);
    }
  }

  // ---------------------------------------------------------------------------
  // Results and receipts

  lemma AuthoriseIs(cfg: Config, f: FabricState, pd: PreparedDecode, pm: PreparedMember) returns (f': FabricState)
    ensures f' == AuthoriseMember(cfg, f, pd, pm).0
    ensures pm.auth.sequence !in f.seqs ==> f' == f
    ensures pm.auth.sequence in f.seqs ==>
      || f' == Reconcile(f, pm.auth.sequence) || f' == Issue(f, pd, pm)
      || f' == ApplyOutcome(cfg, Landed(f, pm.auth.sequence), pm.auth.sequence, pm.outcome)
  {
    f' := AuthoriseMember(cfg, f, pd, pm).0;
  }

  lemma AuthoriseMemberCourse(floor: nat, cfg: Config, f: FabricState, pd: PreparedDecode, pm: PreparedMember)
    returns (f': FabricState)
    requires Inv(cfg, f) && Below(floor, f) && FS.Honest(pm)
    ensures f' == AuthoriseMember(cfg, f, pd, pm).0 && Course(floor, f, f')
  {
    var id := pm.auth.sequence;
    f' := AuthoriseIs(cfg, f, pd, pm);
    if id in f.seqs {
      if f' == Reconcile(f, id) {
        ReconcileCourse(floor, f, id);
      } else if f' == Issue(f, pd, pm) {
        IssueCourse(floor, f, pd, pm);
      } else {
        LandedOutcomeCourse(floor, cfg, f, id, pm.outcome);
      }
    }
  }

  lemma IssueCourse(floor: nat, f: FabricState, pd: PreparedDecode, pm: PreparedMember)
    requires pm.auth.sequence in f.seqs
    ensures Course(floor, f, Issue(f, pd, pm))
  {
    CourseOne(floor, f, Issue(f, pd, pm), pm.auth.sequence);
  }

  lemma {:induction false} AuthoriseCourse(floor: nat, cfg: Config, f: FabricState, pd: PreparedDecode, k: nat)
    requires Inv(cfg, f) && floor == f.next.dispatch && k <= |pd.members|
      && forall pm | pm in pd.members :: FS.Honest(pm)
    ensures Course(floor, f, Authorise(cfg, f, pd, k).0) && Inv(cfg, Authorise(cfg, f, pd, k).0)
    ensures Authorise(cfg, f, pd, k).0.next.dispatch == f.next.dispatch
  {
    InvBelow(cfg, f);
    if k > 0 {
      var f1, pm := Authorise(cfg, f, pd, k - 1).0, pd.members[k - 1];
      AuthoriseCourse(floor, cfg, f, pd, k - 1);
      InvBelow(cfg, f1);
      var f2 := AuthoriseMemberCourse(floor, cfg, f1, pd, pm);
      FS.AuthoriseMemberKeeps(cfg, f1, pd, pm);
      SameCounter(cfg, f1, pd, pm);
      CourseTrans(floor, f, f1, f2);
    }
  }

  lemma SameCounter(cfg: Config, f: FabricState, pd: PreparedDecode, pm: PreparedMember)
    requires Inv(cfg, f) && FS.Honest(pm)
    ensures AuthoriseMember(cfg, f, pd, pm).0.next.dispatch == f.next.dispatch
  {
    if Current(f, pm) && !Succeeded(pm.outcome.kind) {
      LandedOutcomeCalm(cfg, f, pm.auth.sequence, pm.outcome);
    } else if pm.auth.sequence in f.seqs {
      ReconcileCalm(cfg, f, pm.auth.sequence);
    }
  }

  lemma FinaliseCourse(floor: nat, cfg: Config, f: FabricState, rec: MemberReceipt)
    requires Finalises(f, rec)
    ensures Turn(floor, f, Finalise(cfg, f, rec)) && Finalise(cfg, f, rec).next == f.next
    ensures Finalise(cfg, f, rec).boots == f.boots && Finalise(cfg, f, rec).seqs.Keys == f.seqs.Keys
  {
    FS.FinaliseOthers(cfg, f, rec);
    var f', id := Finalise(cfg, f, rec), rec.auth.sequence;
    assert SeqCourse(floor, f.seqs[id], f'.seqs[id]);
  }

  lemma {:induction false} ReceiveCourse(floor: nat, cfg: Config, f: FabricState, recs: seq<MemberReceipt>)
    requires Below(floor, f)
    ensures var f' := Receive(cfg, f, recs).0; Turn(floor, f, f') && f'.boots == f.boots && f'.seqs.Keys == f.seqs.Keys
  {
    if recs != [] {
      var f1, rec := Receive(cfg, f, recs[..|recs| - 1]).0, recs[|recs| - 1];
      ReceiveCourse(floor, cfg, f, recs[..|recs| - 1]);
      if Finalises(f1, rec) {
        FinaliseCourse(floor, cfg, f1, rec);
        TurnTrans(floor, f, f1, Finalise(cfg, f1, rec));
      }
    }
  }

  lemma AbortCourse(floor: nat, f: FabricState, a: AbortPrepared)
    ensures Course(floor, f, AbortPending(f, a))
  {
    if a.auth.sequence in f.seqs {
      CourseOne(floor, f, AbortPending(f, a), a.auth.sequence);
    }
  }

  // ---------------------------------------------------------------------------
  // Scheduling

  lemma CollectOneCourse(floor: nat, f: FabricState, id: nat, workerOrder: seq<nat>, score: map<nat, real>)
    ensures Course(floor, f, CollectOne(f, id, workerOrder, score).0)
  {
    if id in f.seqs && Candidate(f.seqs[id].state) && UsedUp(f.seqs[id]) {
      CloseCourse(floor, f, id, SequenceState.Completed);
    }
  }

  lemma {:induction false} CollectCourse(floor: nat, f: FabricState, order: seq<nat>, workerOrder: seq<nat>,
                                         score: map<nat, real>)
    requires Below(floor, f)
    ensures Course(floor, f, Collect(f, order, workerOrder, score).0)
  {
    if order != [] {
      var f1 := Collect(f, order[..|order| - 1], workerOrder, score).0;
      CollectCourse(floor, f, order[..|order| - 1], workerOrder, score);
      CollectOneCourse(floor, f1, order[|order| - 1], workerOrder, score);
      CourseTrans(floor, f, f1, CollectOne(f1, order[|order| - 1], workerOrder, score).0);
    }
  }

  /** A sequence bound to a new dispatch is out on nothing it was out on before. */
  lemma BoundCourse(floor: nat, f: FabricState, f1: FabricState, f2: FabricState, id: nat)
    requires Below(floor, f) && Course(floor, f, f1) && id in f1.seqs && id in f2.seqs
    requires f2.seqs == f1.seqs[id := f2.seqs[id]] && f2.seqs[id].flight.dispatch >= floor
    requires SeqQuiet(f1.seqs[id], f2.seqs[id]) && f2.epoch == f1.epoch && f2.next == f1.next
    requires f2.terminal == f1.terminal && f2.boots == f1.boots
    ensures Course(floor, f, f2)
  {
    forall k | k in f.seqs
      ensures k in f2.seqs && SeqCourse(floor, f.seqs[k], f2.seqs[k]) && SeqQuiet(f.seqs[k], f2.seqs[k]) {
      assert SeqCourse(floor, f.seqs[k], f1.seqs[k]) && SeqQuiet(f.seqs[k], f1.seqs[k]);
    }
  }

  /** The start of the pass is what everything is compared with, so dispatches of earlier groups do not matter. */
  lemma SendOnCourse(floor: nat, f: FabricState, f1: FabricState, w: Worker, g: G.Group)
    requires Below(floor, f) && Course(floor, f, f1) && f1.next.dispatch >= floor
    ensures Course(floor, f, SendTo(f1, w, g))
  {
    var f0 := Booked(f1, w, g);
    BindOnCourse(floor, f, f0, g.members, f1.next.dispatch, w.id, f1.memory.nextReservation);
  }

  lemma {:induction false} BindOnCourse(floor: nat, f: FabricState, f0: FabricState, ms: seq<G.Candidate>, d: nat,
                                        worker: nat, rid: nat)
    requires Below(floor, f) && Course(floor, f, f0) && d >= floor
    ensures Course(floor, f, BindAll(f0, ms, d, worker, rid))
  {
    if ms != [] {
      var f1, f2 := BindAll(f0, ms[..|ms| - 1], d, worker, rid), BindAll(f0, ms, d, worker, rid);
      BindOnCourse(floor, f, f0, ms[..|ms| - 1], d, worker, rid);
      if ms[|ms| - 1].sequence in f1.seqs {
        BoundCourse(floor, f, f1, f2, ms[|ms| - 1].sequence);
      }
    }
  }

  lemma MovedCourse(floor: nat, f: FabricState, id: nat, to: SequenceState)
    requires id in f.seqs && !Retryable(to) && !to.Completed?
    ensures Course(floor, f, Put(f, id, f.seqs[id].(state := Move(f.seqs[id].state, to))))
  {
    CourseOne(floor, f, Put(f, id, f.seqs[id].(state := Move(f.seqs[id].state, to))), id);
  }

  lemma {:induction false} MoveOnCourse(floor: nat, f: FabricState, f0: FabricState, ms: seq<G.Candidate>,
                                        to: SequenceState)
    requires Below(floor, f) && Course(floor, f, f0) && !Retryable(to) && !to.Completed?
    ensures Course(floor, f, MoveAll(f0, ms, to))
  {
    if ms != [] {
      var f1, f2 := MoveAll(f0, ms[..|ms| - 1], to), MoveAll(f0, ms, to);
      MoveOnCourse(floor, f, f0, ms[..|ms| - 1], to);
      if ms[|ms| - 1].sequence in f1.seqs {
        MovedCourse(floor, f1, ms[|ms| - 1].sequence, to);
        CourseTrans(floor, f, f1, f2);
      }
    }
  }

  lemma {:induction false} DispatchCourse(floor: nat, cfg: Config, f: FabricState, f0: FabricState,
                                          workerOrder: seq<nat>, groups: seq<G.Group>)
    requires Below(floor, f) && Course(floor, f, f0) && f0.next.dispatch >= floor
    ensures var f' := DispatchAll(cfg, f0, workerOrder, groups).0; Course(floor, f, f') && f'.next.dispatch >= floor
  {
    if groups != [] {
      var g := groups[|groups| - 1];
      DispatchCourse(floor, cfg, f, f0, workerOrder, groups[..|groups| - 1]);
      var f1 := DispatchAll(cfg, f0, workerOrder, groups[..|groups| - 1]).0;
      GroupCourse(floor, cfg, f, f1, workerOrder, g);
    }
  }

  lemma GroupCourse(floor: nat, cfg: Config, f: FabricState, f1: FabricState, workerOrder: seq<nat>, g: G.Group)
    requires Below(floor, f) && Course(floor, f, f1) && f1.next.dispatch >= floor
    ensures var f' := DispatchGroup(cfg, f1, workerOrder, g).0; Course(floor, f, f') && f'.next.dispatch >= floor
  {
    MoveOnCourse(floor, f, f1, g.members, Ready);
    PS.MoveCounters(f1, g.members, Ready);
    var chosen := Place(f1, workerOrder, g.key);
    if chosen.Some? && chosen.value in f1.workers {
      SendOnCourse(floor, f, f1, f1.workers[chosen.value], g);
      PS.SendCounters(f1, f1.workers[chosen.value], g);
    }
  }

  lemma ScheduleCourse(cfg: Config, f: FabricState, now: int, order: seq<nat>, workerOrder: seq<nat>,
                       score: map<nat, real>)
    requires Inv(cfg, f)
    ensures Course(f.next.dispatch, f, Schedule(cfg, f, now, order, workerOrder, score).0)
  {
    var floor := f.next.dispatch;
    InvBelow(cfg, f);
    var f1 := Advance(f, now, order);
    AdvanceCourse(floor, f, now, order);
    AdvanceCalm(cfg, f, now, order);
    CalmKeeps(cfg, f, f1);
    InvBelow(cfg, f1);
    CollectCourse(floor, f1, order, workerOrder, score);
    var (f2, cs) := Collect(f1, order, workerOrder, score);
    CourseTrans(floor, f, f1, f2);
    var groups := G.FormGroups(cfg.limits, cfg.keyText, cs);
    FormedCourse(floor, cfg, f, f2, workerOrder, groups);
  }

  lemma {:induction false} GroupsOnCourse(floor: nat, f: FabricState, f0: FabricState, groups: seq<G.Group>,
                                          to: SequenceState)
    requires Below(floor, f) && Course(floor, f, f0) && !Retryable(to) && !to.Completed?
    ensures Course(floor, f, MoveGroups(f0, groups, to))
  {
    if groups != [] {
      GroupsOnCourse(floor, f, f0, groups[..|groups| - 1], to);
      MoveOnCourse(floor, f, MoveGroups(f0, groups[..|groups| - 1], to), groups[|groups| - 1].members, to);
    }
  }

  lemma FormedCourse(floor: nat, cfg: Config, f: FabricState, f2: FabricState, workerOrder: seq<nat>,
                     groups: seq<G.Group>)
    requires Below(floor, f) && Course(floor, f, f2) && f2.next.dispatch >= floor
    ensures Course(floor, f, DispatchAll(cfg, MoveGroups(f2, groups, Grouped), workerOrder, groups).0)
  {
    GroupsOnCourse(floor, f, f2, groups, Grouped);
    PS.GroupsCarry(f2, groups, Grouped);
    DispatchCourse(floor, cfg, f, MoveGroups(f2, groups, Grouped), workerOrder, groups);
  }

  // ---------------------------------------------------------------------------
  // Every step

  lemma RestoredCourse(floor: nat, s: Sequence, t: Sequence)
    requires R.RecoveredFrom(s, t)
    ensures SeqCourse(floor, s, t) && SeqQuiet(s, t)
  {
    assert R.Save(t).state == t.state == R.Requeued(s.state);
  }

  lemma RestoreCourse(cfg: Config, f: FabricState, into: FabricState)
    requires Inv(cfg, f)
    ensures var f' := R.Restore(into, R.ImageOf(f)); Turn(f.next.dispatch, f, f') && Quiet(f, f')
  {
    var f' := R.Restore(into, R.ImageOf(f));
    R.RestoreKeeps(cfg, f, into);
    RestoredAll(f.next.dispatch, f, f');
  }

  lemma RestoredAll(floor: nat, f: FabricState, f': FabricState)
    requires f'.seqs.Keys == f.seqs.Keys && forall id | id in f.seqs :: R.RecoveredFrom(f.seqs[id], f'.seqs[id])
    requires f'.epoch == f.epoch && f'.terminal == f.terminal && f'.next.dispatch == f.next.dispatch
    ensures Turn(floor, f, f') && Quiet(f, f')
  {
    forall id | id in f.seqs ensures SeqCourse(floor, f.seqs[id], f'.seqs[id]) && SeqQuiet(f.seqs[id], f'.seqs[id]) {
      RestoredCourse(floor, f.seqs[id], f'.seqs[id]);
    }
  }

  lemma PlainCourse(floor: nat, f: FabricState, f': FabricState)
    requires f.epoch <= f'.epoch && f'.terminal == f.terminal && f'.next == f.next
    requires forall id | id in f.seqs :: id in f'.seqs && f'.seqs[id] == f.seqs[id]
    ensures Turn(floor, f, f') && Quiet(f, f')
  {
  }

  lemma SubmitCourse(floor: nat, f: FabricState, req: DecodeRequest, workerOrder: seq<nat>, admit: bool)
    ensures var f' := Submit(f, req, workerOrder, admit); Turn(floor, f, f') && Quiet(f, f') && f'.boots == f.boots
  {
    PlainCourse(floor, f, Submit(f, req, workerOrder, admit));
  }

  lemma LocalCourse(cfg: Config, f: FabricState, op: O.Operation)
    requires Inv(cfg, f)
    ensures Turn(f.next.dispatch, f, O.Operate(cfg, f, op)) && Quiet(f, O.Operate(cfg, f, op))
    ensures !op.Register? && !op.Restart? ==> O.Operate(cfg, f, op).boots == f.boots
  {
    var floor := f.next.dispatch;
    InvBelow(cfg, f);
    match op
    case Submit(req, workerOrder, admit) => SubmitCourse(floor, f, req, workerOrder, admit);
    case Cancel(id) => CancelCourse(floor, f, id);
    case Retry(id) => RetryCourse(floor, cfg, f, id);
    case Register(worker) => PlainCourse(floor, f, O.Operate(cfg, f, op));
    case MarkWorkerDead(dead, order) => DeadCourse(floor, f, dead, order);
    case RollEpoch => PlainCourse(floor, f, O.Operate(cfg, f, op));
    case Advance(now, order) => AdvanceCourse(floor, f, now, order);
    case Complete(result) => var _ := CompleteCourse(floor, cfg, f, result, |result.outcomes|);
    case AbortPending(abort) => AbortCourse(floor, f, abort);
    case Restart(inPlace) => RestoreCourse(cfg, f, if inPlace then f else Start);
  }

  predicate Rebooting(st: RP.Step) {
    st.Local? && (st.op.Register? || st.op.Restart?)
  }

  lemma StepCourse(cfg: Config, f: FabricState, st: RP.Step)
    requires Inv(cfg, f) && RP.HonestStep(st)
    ensures Turn(f.next.dispatch, f, RP.Take(cfg, f, st)) && (!st.Receipts? ==> Quiet(f, RP.Take(cfg, f, st)))
    ensures !Rebooting(st) ==> RP.Take(cfg, f, st).boots == f.boots
  {
    InvBelow(cfg, f);
    match st
    case Local(op) => LocalCourse(cfg, f, op);
    case Dispatch(now, order, workerOrder, score) => ScheduleCourse(cfg, f, now, order, workerOrder, score);
    case Prepared(pd) => AuthoriseCourse(f.next.dispatch, cfg, f, pd, |pd.members|);
    case Receipts(recs) => ReceiveCourse(f.next.dispatch, cfg, f, recs);
  }

  lemma StepInv(cfg: Config, f: FabricState, st: RP.Step)
    requires Inv(cfg, f) && RP.HonestStep(st)
    ensures Inv(cfg, RP.Take(cfg, f, st))
  {
    match st
    case Local(op) => O.OperateKeeps(cfg, f, op);
    case Dispatch(now, order, workerOrder, score) => FS.ScheduleKeeps(cfg, f, now, order, workerOrder, score);
    case Prepared(pd) => AuthoriseCourse(f.next.dispatch, cfg, f, pd, |pd.members|);
    case Receipts(recs) => PG.ReceiveInv(cfg, f, recs);
  }
}
