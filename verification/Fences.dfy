/** What is out of date stays out of date. */
module Fences {
  // Once the epoch has rolled, a new attempt was made, a worker was booted again or a grant
  // was withdrawn, nothing from before is granted or finalised, whatever the coordinator is
  // asked to do and whatever it receives in the meantime.

  import opened Types
  import opened Fabric
  import opened FabricInvariants
  import opened Courses
  import A = Answers
  import FS = FabricSteps
  import O = Operations
  import R = Recovery
  import RP = Replay

  /** The result is sent back to be aborted. */
  predicate Refuses(cfg: Config, f: FabricState, pd: PreparedDecode, pm: PreparedMember) {
    AuthoriseMember(cfg, f, pd, pm).1.SendAbort?
  }

  ghost predicate Honest(steps: seq<RP.Step>) {
    forall st | st in steps :: RP.HonestStep(st)
  }

  lemma LastStep(steps: seq<RP.Step>)
    requires steps != [] && Honest(steps)
    ensures Honest(steps[..|steps| - 1]) && RP.HonestStep(steps[|steps| - 1])
  {
    assert forall st | st in steps[..|steps| - 1] :: st in steps;
  }

  // ---------------------------------------------------------------------------
  // Epochs

  lemma {:induction false} EpochsRise(cfg: Config, f: FabricState, steps: seq<RP.Step>)
    requires Inv(cfg, f) && Honest(steps)
    ensures Inv(cfg, RP.TakeAll(cfg, f, steps)) && f.epoch <= RP.TakeAll(cfg, f, steps).epoch
    ensures f.next.dispatch <= RP.TakeAll(cfg, f, steps).next.dispatch
  {
    if steps != [] {
      LastStep(steps);
      EpochsRise(cfg, f, steps[..|steps| - 1]);
      var f1 := RP.TakeAll(cfg, f, steps[..|steps| - 1]);
      StepInv(cfg, f1, steps[|steps| - 1]);
      StepCourse(cfg, f1, steps[|steps| - 1]);
    }
  }

  /** After an epoch has rolled, no result of an earlier epoch is ever granted. */
  lemma EpochFence(cfg: Config, f: FabricState, steps: seq<RP.Step>, pd: PreparedDecode, pm: PreparedMember)
    requires Inv(cfg, f) && Honest(steps) && pm.auth.epoch <= f.epoch
    ensures Refuses(cfg, RP.TakeAll(cfg, RollEpoch(f), steps), pd, pm)
  {
    O.OperateKeeps(cfg, f, O.RollEpoch);
    EpochsRise(cfg, RollEpoch(f), steps);
    A.GrantedExactly(cfg, RP.TakeAll(cfg, RollEpoch(f), steps), pd, pm);
  }

  // ---------------------------------------------------------------------------
  // Attempts

  /** The result is of a dispatch that is over, or of another attempt than the one that is settled on. */
  predicate Outdated(f: FabricState, a: Authority) {
    && a.sequence in f.seqs && NULL != a.dispatch < f.next.dispatch
    && var s := f.seqs[a.sequence];
    && (s.flight.dispatch == a.dispatch ==> s.attempt != a.attempt && !A.Failing(s.state))
  }

  lemma OutdatedStep(cfg: Config, f: FabricState, f': FabricState, a: Authority)
    requires Outdated(f, a) && Turn(f.next.dispatch, f, f')
    ensures Outdated(f', a)
  {
    assert SeqCourse(f.next.dispatch, f.seqs[a.sequence], f'.seqs[a.sequence]);
  }

  lemma {:induction false} OutdatedStays(cfg: Config, f: FabricState, steps: seq<RP.Step>, a: Authority)
    requires Inv(cfg, f) && Honest(steps) && Outdated(f, a)
    ensures Outdated(RP.TakeAll(cfg, f, steps), a) && Inv(cfg, RP.TakeAll(cfg, f, steps))
  {
    if steps != [] {
      LastStep(steps);
      OutdatedStays(cfg, f, steps[..|steps| - 1], a);
      var f1 := RP.TakeAll(cfg, f, steps[..|steps| - 1]);
      StepInv(cfg, f1, steps[|steps| - 1]);
      StepCourse(cfg, f1, steps[|steps| - 1]);
      OutdatedStep(cfg, f1, RP.Take(cfg, f1, steps[|steps| - 1]), a);
    }
  }

  /** The sequence is failing and has an attempt left. */
  predicate MayRetry(cfg: Config, f: FabricState, id: nat) {
    id in f.seqs && A.Failing(f.seqs[id].state) && f.seqs[id].attemptCount < cfg.maxAttempts
  }

  /** After a retry, no result of an attempt with another id is ever granted. */
  lemma RetryFence(cfg: Config, f: FabricState, steps: seq<RP.Step>, pd: PreparedDecode, pm: PreparedMember)
    requires Inv(cfg, f) && Honest(steps) && FS.Honest(pm) && pm.auth.dispatch < f.next.dispatch
    requires MayRetry(cfg, f, pm.auth.sequence) && pm.auth.attempt != f.next.dispatch + 1000000
    ensures Refuses(cfg, RP.TakeAll(cfg, Retry(cfg, f, pm.auth.sequence), steps), pd, pm)
  {
    var f' := Retry(cfg, f, pm.auth.sequence);
    A.RetryRenews(cfg, f, pm.auth.sequence);
    O.OperateKeeps(cfg, f, O.Retry(pm.auth.sequence));
    assert Outdated(f', pm.auth);
    OutdatedStays(cfg, f', steps, pm.auth);
    A.GrantedExactly(cfg, RP.TakeAll(cfg, f', steps), pd, pm);
  }

  /** An attempt whose id the retry mints again is not cut off: its result is granted as if nothing had happened. */
  lemma RetryRegrants(cfg: Config, f: FabricState, pd: PreparedDecode, pm: PreparedMember)
    requires Inv(cfg, f) && MayRetry(cfg, f, pm.auth.sequence) && !Refuses(cfg, f, pd, pm)
    ensures Refuses(cfg, Retry(cfg, f, pm.auth.sequence), pd, pm) <==> pm.auth.attempt != f.next.dispatch + 1000000
  {
    var f' := Retry(cfg, f, pm.auth.sequence);
    A.RetryRenews(cfg, f, pm.auth.sequence);
    A.GrantedExactly(cfg, f, pd, pm);
    A.GrantedExactly(cfg, f', pd, pm);
  }

  // ---------------------------------------------------------------------------
  // Boots

  /** The step registers worker `w` under boot `boot`. */
  predicate Reboots(st: RP.Step, w: nat, boot: nat) {
    st.Local? && st.op.Register? && st.op.worker.id == w && st.op.worker.boot == boot
  }

  /** The worker is known under another boot, or nothing of that time is out any more. */
  ghost predicate Overtaken(cfg: Config, floor: nat, f: FabricState, w: nat, boot: nat) {
    (w in f.boots && f.boots[w] != boot) || RP.Late(cfg, floor, f)
  }

  lemma OvertakenStep(cfg: Config, floor: nat, f: FabricState, st: RP.Step, w: nat, boot: nat)
    requires Inv(cfg, f) && RP.HonestStep(st) && Overtaken(cfg, floor, f, w, boot) && floor <= f.next.dispatch
    requires !Reboots(st, w, boot)
    ensures Overtaken(cfg, floor, RP.Take(cfg, f, st), w, boot)
  {
    if RP.Late(cfg, floor, f) {
      RP.TakeStaysLate(cfg, floor, f, st);
    } else if Rebooting(st) {
      if st.op.Restart? {
        RP.RestoreIsLate(cfg, floor, f, if st.op.inPlace then f else Start);
      }
    } else {
      StepCourse(cfg, f, st);
    }
  }

  lemma {:induction false} OvertakenStays(cfg: Config, floor: nat, f: FabricState, steps: seq<RP.Step>, w: nat,
                                          boot: nat)
    requires Inv(cfg, f) && Honest(steps) && Overtaken(cfg, floor, f, w, boot) && floor <= f.next.dispatch
    requires forall st | st in steps :: !Reboots(st, w, boot)
    ensures Overtaken(cfg, floor, RP.TakeAll(cfg, f, steps), w, boot)
  {
    if steps != [] {
      var front := steps[..|steps| - 1];
      LastStep(steps);
      assert forall st | st in front :: st in steps;
      OvertakenStays(cfg, floor, f, front, w, boot);
      EpochsRise(cfg, f, front);
      OvertakenStep(cfg, floor, RP.TakeAll(cfg, f, front), steps[|steps| - 1], w, boot);
    }
  }

  /**
   After a worker has registered under a new boot, no result from before of any other boot of
   it is granted, unless the worker registers under that boot again.
   */
  lemma BootFence(cfg: Config, f: FabricState, w: Worker, steps: seq<RP.Step>, pd: PreparedDecode, pm: PreparedMember)
    requires Inv(cfg, f) && Honest(steps) && FS.Honest(pm) && pm.auth.dispatch < f.next.dispatch
    requires w.id != NULL && w.boot != NULL && pm.auth.worker == w.id && pm.auth.workerBoot != w.boot
    requires forall st | st in steps :: !Reboots(st, w.id, pm.auth.workerBoot)
    ensures Refuses(cfg, RP.TakeAll(cfg, Register(cfg, f, w), steps), pd, pm)
  {
    var f1 := Register(cfg, f, w);
    O.OperateKeeps(cfg, f, O.Register(w));
    OvertakenStays(cfg, f.next.dispatch, f1, steps, w.id, pm.auth.workerBoot);
    var f' := RP.TakeAll(cfg, f1, steps);
    A.GrantedExactly(cfg, f', pd, pm);
    if RP.Late(cfg, f.next.dispatch, f') {
      RP.LateGrants(cfg, f.next.dispatch, f', pm);
    }
  }

  // ---------------------------------------------------------------------------
  // Grants

  /** The grant is spent or withdrawn for good. */
  predicate Closed(gr: GrantRecord) {
    gr.status in {GRANT_CONSUMED, GRANT_ABORTED}
  }

  ghost predicate LedgerStep(f: FabricState, f': FabricState) {
    && f.next.grant <= f'.next.grant
    && (forall g | g in f.ledger && g < f.next.grant && Closed(f.ledger[g]) ::
      g in f'.ledger && f'.ledger[g] == f.ledger[g])
  }

  lemma IssueLedger(cfg: Config, f: FabricState, pd: PreparedDecode, pm: PreparedMember)
    requires Inv(cfg, f) && FS.Honest(pm)
    ensures LedgerStep(f, AuthoriseMember(cfg, f, pd, pm).0)
  {
    if Current(f, pm) && !Succeeded(pm.outcome.kind) {
      LandedOutcomeCalm(cfg, f, pm.auth.sequence, pm.outcome);
    } else if pm.auth.sequence in f.seqs {
      ReconcileCalm(cfg, f, pm.auth.sequence);
    }
  }

  lemma {:induction false} AuthoriseLedger(cfg: Config, f: FabricState, pd: PreparedDecode, k: nat)
    requires Inv(cfg, f) && k <= |pd.members| && forall pm | pm in pd.members :: FS.Honest(pm)
    ensures LedgerStep(f, Authorise(cfg, f, pd, k).0)
  {
    if k > 0 {
      AuthoriseLedger(cfg, f, pd, k - 1);
      var f1 := Authorise(cfg, f, pd, k - 1).0;
      AuthoriseCourse(f.next.dispatch, cfg, f, pd, k - 1);
      IssueLedger(cfg, f1, pd, pd.members[k - 1]);
    }
  }

  lemma FinaliseLedger(cfg: Config, f: FabricState, rec: MemberReceipt)
    requires Finalises(f, rec)
    ensures LedgerStep(f, Finalise(cfg, f, rec))
  {
  }

  lemma {:induction false} ReceiveLedger(cfg: Config, f: FabricState, recs: seq<MemberReceipt>)
    ensures LedgerStep(f, Receive(cfg, f, recs).0)
  {
    if recs != [] {
      ReceiveLedger(cfg, f, recs[..|recs| - 1]);
      var f1 := Receive(cfg, f, recs[..|recs| - 1]).0;
      if Finalises(f1, recs[|recs| - 1]) {
        FinaliseLedger(cfg, f1, recs[|recs| - 1]);
      }
    }
  }

  lemma LocalLedger(cfg: Config, f: FabricState, op: O.Operation)
    requires Inv(cfg, f) && !op.Restart?
    ensures LedgerStep(f, O.Operate(cfg, f, op))
  {
    match op
    case Submit(req, workerOrder, admit) =>
    case Register(worker) =>
    case AbortPending(abort) =>
    case _ => O.OperateCalm(cfg, f, op);
  }

  lemma StepLedger(cfg: Config, f: FabricState, st: RP.Step)
    requires Inv(cfg, f) && RP.HonestStep(st) && !(st.Local? && st.op.Restart?)
    ensures LedgerStep(f, RP.Take(cfg, f, st))
  {
    match st
    case Local(op) => LocalLedger(cfg, f, op);
    case Dispatch(now, order, workerOrder, score) => FS.ScheduleKeeps(cfg, f, now, order, workerOrder, score);
    case Prepared(pd) => AuthoriseLedger(cfg, f, pd, |pd.members|);
    case Receipts(recs) => ReceiveLedger(cfg, f, recs);
  }

  /**
   The grant is closed in the ledger, or it is of a dispatch from before a recovery. Recovery
   starts the grant ids over, so that the entry itself may be written anew.
   */
  ghost predicate Gone(cfg: Config, f: FabricState, g: CommitGrant) {
    && g.auth.dispatch < f.next.dispatch
    && (ClosedIn(f, g) || RP.Late(cfg, g.auth.dispatch + 1, f))
  }

  predicate ClosedIn(f: FabricState, g: CommitGrant) {
    g.grant < f.next.grant && g.grant in f.ledger && f.ledger[g.grant].grant == g && Closed(f.ledger[g.grant])
  }

  lemma ClosedStays(f: FabricState, f': FabricState, g: CommitGrant)
    requires ClosedIn(f, g) && LedgerStep(f, f')
    ensures ClosedIn(f', g)
  {
  }

  lemma GoneByLedger(cfg: Config, f: FabricState, f': FabricState, g: CommitGrant)
    requires ClosedIn(f, g) && LedgerStep(f, f') && g.auth.dispatch < f.next.dispatch <= f'.next.dispatch
    ensures Gone(cfg, f', g)
  {
    ClosedStays(f, f', g);
  }

  lemma GoneByRecovery(cfg: Config, f: FabricState, into: FabricState, g: CommitGrant)
    requires Inv(cfg, f) && g.auth.dispatch < f.next.dispatch
    ensures Gone(cfg, R.Restore(into, R.ImageOf(f)), g)
  {
    RP.RestoreIsLate(cfg, g.auth.dispatch + 1, f, into);
  }

  lemma GoneByLateness(cfg: Config, f: FabricState, st: RP.Step, g: CommitGrant)
    requires RP.HonestStep(st) && RP.Late(cfg, g.auth.dispatch + 1, f)
    ensures Gone(cfg, RP.Take(cfg, f, st), g)
  {
    RP.TakeStaysLate(cfg, g.auth.dispatch + 1, f, st);
  }

  lemma GoneStep(cfg: Config, f: FabricState, st: RP.Step, g: CommitGrant)
    requires Inv(cfg, f) && RP.HonestStep(st) && Gone(cfg, f, g)
    ensures Gone(cfg, RP.Take(cfg, f, st), g)
  {
    if RP.Late(cfg, g.auth.dispatch + 1, f) {
      GoneByLateness(cfg, f, st, g);
    } else if st.Local? && st.op.Restart? {
      GoneByRecovery(cfg, f, if st.op.inPlace then f else Start, g);
    } else {
      StepCourse(cfg, f, st);
      StepLedger(cfg, f, st);
      GoneByLedger(cfg, f, RP.Take(cfg, f, st), g);
    }
  }

  lemma {:induction false} GoneStays(cfg: Config, f: FabricState, steps: seq<RP.Step>, g: CommitGrant)
    requires Inv(cfg, f) && Honest(steps) && Gone(cfg, f, g)
    ensures Gone(cfg, RP.TakeAll(cfg, f, steps), g)
  {
    if steps != [] {
      LastStep(steps);
      GoneStays(cfg, f, steps[..|steps| - 1], g);
      EpochsRise(cfg, f, steps[..|steps| - 1]);
      GoneStep(cfg, RP.TakeAll(cfg, f, steps[..|steps| - 1]), steps[|steps| - 1], g);
    }
  }

  lemma GoneRefused(cfg: Config, f: FabricState, g: CommitGrant, rec: MemberReceipt)
    requires Gone(cfg, f, g) && Answers(rec, g)
    ensures !Finalises(f, rec)
  {
    if RP.Late(cfg, g.auth.dispatch + 1, f) {
      RP.LateReceipts(cfg, g.auth.dispatch + 1, f, rec);
    }
  }

  /** A grant that was aborted is never finalised, whatever happens next, recoveries included. */
  lemma AbortFence(cfg: Config, f: FabricState, a: AbortPrepared, steps: seq<RP.Step>, rec: MemberReceipt)
    requires Inv(cfg, f) && Honest(steps) && A.Names(f, a)
    requires Answers(rec, f.ledger[f.seqs[a.auth.sequence].pending.value.grant].grant)
    ensures !Finalises(RP.TakeAll(cfg, AbortPending(f, a), steps), rec)
  {
    var g := f.ledger[f.seqs[a.auth.sequence].pending.value.grant].grant;
    assert SeqOk(cfg, f, a.auth.sequence, f.seqs[a.auth.sequence]);
    A.AbortExactly(cfg, f, a);
    FS.AbortPendingKeeps(cfg, f, a);
    assert Gone(cfg, AbortPending(f, a), g);
    GoneStays(cfg, AbortPending(f, a), steps, g);
    GoneRefused(cfg, RP.TakeAll(cfg, AbortPending(f, a), steps), g, rec);
  }

  /** And one that was finalised is never finalised again. */
  lemma ReceiptFence(cfg: Config, f: FabricState, first: MemberReceipt, steps: seq<RP.Step>, rec: MemberReceipt)
    requires Inv(cfg, f) && Honest(steps) && Finalises(f, first) && Answers(rec, f.ledger[first.grant].grant)
    ensures !Finalises(RP.TakeAll(cfg, Finalise(cfg, f, first), steps), rec)
  {
    var g, f1 := f.ledger[first.grant].grant, Finalise(cfg, f, first);
    assert SeqOk(cfg, f, first.auth.sequence, f.seqs[first.auth.sequence]);
    FS.FinaliseKeeps(cfg, f, first);
    A.ReceiptSpends(cfg, f, first);
    FinaliseCourse(0, cfg, f, first);
    assert Gone(cfg, f1, g);
    GoneStays(cfg, f1, steps, g);
    GoneRefused(cfg, RP.TakeAll(cfg, f1, steps), g, rec);
  }
}
