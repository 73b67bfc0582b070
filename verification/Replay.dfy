/** Messages from before a snapshot are dead after recovery. */
module Replay {
  // Grant ids start over, but every flight and every pending grant of the recovered
  // coordinator carries a dispatch id that the snapshot had not given out yet.

  import opened Types
  import opened Fabric
  import opened FabricInvariants
  import opened FabricSteps
  import O = Operations
  import R = Recovery
  import N = Network
  import NI = NetworkInvariants
  import NS = NetworkSteps
  import E = Executor

  /** Whatever the coordinator does or receives; messages may have any content. */
  datatype Step =
    | Local(op: O.Operation)
    | Dispatch(now: int, order: seq<nat>, workerOrder: seq<nat>, score: map<nat, real>)
    | Prepared(pd: PreparedDecode)
    | Receipts(recs: seq<MemberReceipt>)

  /** Prepared members name a real dispatch and their own sequence. */
  predicate HonestStep(st: Step) {
    st.Prepared? ==> forall pm | pm in st.pd.members :: Honest(pm)
  }

  ghost function Take(cfg: Config, f: FabricState, st: Step): FabricState {
    match st
    case Local(op) => O.Operate(cfg, f, op)
    case Dispatch(now, order, workerOrder, score) => Schedule(cfg, f, now, order, workerOrder, score).0
    case Prepared(pd) => Authorise(cfg, f, pd, |pd.members|).0
    case Receipts(recs) => Receive(cfg, f, recs).0
  }

  ghost function TakeAll(cfg: Config, f: FabricState, steps: seq<Step>): FabricState {
    if steps == [] then f else Take(cfg, TakeAll(cfg, f, steps[..|steps| - 1]), steps[|steps| - 1])
  }

  /** Everything in flight or granted carries a dispatch id of at least `floor`. */
  predicate LateSeq(floor: nat, f: FabricState, s: Sequence) {
    && (s.flight.dispatch == NULL || s.flight.dispatch >= floor)
    && (s.pending.Some? ==> s.pending.value.grant in f.ledger
                            && f.ledger[s.pending.value.grant].grant.auth.dispatch >= floor)
  }

  ghost predicate Late(cfg: Config, floor: nat, f: FabricState) {
    && Inv(cfg, f) && f.next.dispatch >= floor
    && (forall id | id in f.seqs :: LateSeq(floor, f, f.seqs[id]))
  }

  lemma StaysLate(cfg: Config, floor: nat, f: FabricState, f': FabricState)
    requires Late(cfg, floor, f) && Inv(cfg, f') && Evolves(f, f') && NoNewGrants(f, f')
    ensures Late(cfg, floor, f')
  {
    forall id | id in f'.seqs ensures LateSeq(floor, f', f'.seqs[id]) {
      assert SeqStep(f.next.dispatch, f.seqs[id], f'.seqs[id]) && LateSeq(floor, f, f.seqs[id]);
    }
  }

  lemma AbortStaysLate(cfg: Config, floor: nat, f: FabricState, a: AbortPrepared)
    requires Late(cfg, floor, f)
    ensures Late(cfg, floor, AbortPending(f, a))
  {
    var f' := AbortPending(f, a);
    AbortPendingKeeps(cfg, f, a);
    forall id | id in f'.seqs ensures LateSeq(floor, f', f'.seqs[id]) {
      assert LateSeq(floor, f, f.seqs[id]);
    }
  }

  lemma RestoreIsLate(cfg: Config, floor: nat, f: FabricState, into: FabricState)
    requires Inv(cfg, f) && floor <= f.next.dispatch
    ensures Late(cfg, floor, R.Restore(into, R.ImageOf(f)))
  {
    R.RestoreKeeps(cfg, f, into);
    var f' := R.Restore(into, R.ImageOf(f));
    forall id | id in f'.seqs ensures LateSeq(floor, f', f'.seqs[id]) {
      assert R.RecoveredFrom(f.seqs[id], f'.seqs[id]);
    }
  }

  lemma SubmitStaysLate(cfg: Config, floor: nat, f: FabricState, req: DecodeRequest, workerOrder: seq<nat>, admit: bool)
    requires Late(cfg, floor, f)
    ensures Late(cfg, floor, Submit(f, req, workerOrder, admit))
  {
    SubmitKeeps(cfg, f, req, workerOrder, admit);
    var f' := Submit(f, req, workerOrder, admit);
    forall id | id in f'.seqs ensures LateSeq(floor, f', f'.seqs[id]) {
      assert id in f.seqs ==> LateSeq(floor, f, f.seqs[id]);
    }
  }

  lemma LocalStaysLate(cfg: Config, floor: nat, f: FabricState, op: O.Operation)
    requires Late(cfg, floor, f)
    ensures Late(cfg, floor, O.Operate(cfg, f, op))
  {
    match op
    case Submit(req, workerOrder, admit) => SubmitStaysLate(cfg, floor, f, req, workerOrder, admit);
    case AbortPending(abort) => AbortStaysLate(cfg, floor, f, abort);
    case Restart(inPlace) => RestoreIsLate(cfg, floor, f, if inPlace then f else Start);
    case Register(worker) =>
      O.PlainKeeps(cfg, f, op);
      StaysLate(cfg, floor, f, O.Operate(cfg, f, op));
    case _ =>
      O.OperateCalm(cfg, f, op);
      O.PlainKeeps(cfg, f, op);
      CalmGrants(cfg, f, O.Operate(cfg, f, op));
      StaysLate(cfg, floor, f, O.Operate(cfg, f, op));
  }

  /** A grant is issued only for the dispatch the sequence is out on. */
  lemma IssueStaysLate(cfg: Config, floor: nat, f: FabricState, pd: PreparedDecode, pm: PreparedMember)
    requires Late(cfg, floor, f) && Honest(pm) && Authorised(cfg, f, pm)
    ensures Late(cfg, floor, Issue(f, pd, pm))
  {
    IssueKeeps(cfg, f, pd, pm);
    var f' := Issue(f, pd, pm);
    forall id | id in f'.seqs ensures LateSeq(floor, f', f'.seqs[id]) {
      assert LateSeq(floor, f, f.seqs[id]) && SeqOk(cfg, f, id, f.seqs[id]);
    }
  }

  lemma AuthoriseMemberStaysLate(cfg: Config, floor: nat, f: FabricState, pd: PreparedDecode, pm: PreparedMember)
    requires Late(cfg, floor, f) && Honest(pm)
    ensures Late(cfg, floor, AuthoriseMember(cfg, f, pd, pm).0)
  {
    var f' := AuthoriseMember(cfg, f, pd, pm).0;
    if Authorised(cfg, f, pm) {
      IssueStaysLate(cfg, floor, f, pd, pm);
    } else if pm.auth.sequence in f.seqs {
      if Current(f, pm) && !Succeeded(pm.outcome.kind) {
        LandedOutcomeCalm(cfg, f, pm.auth.sequence, pm.outcome);
      } else {
        ReconcileCalm(cfg, f, pm.auth.sequence);
      }
      CalmKeeps(cfg, f, f');
      CalmGrants(cfg, f, f');
      StaysLate(cfg, floor, f, f');
    }
  }

  lemma {:induction false} AuthoriseStaysLate(cfg: Config, floor: nat, f: FabricState, pd: PreparedDecode, k: nat)
    requires Late(cfg, floor, f) && k <= |pd.members| && forall pm | pm in pd.members :: Honest(pm)
    ensures Late(cfg, floor, Authorise(cfg, f, pd, k).0)
  {
    if k > 0 {
      AuthoriseStaysLate(cfg, floor, f, pd, k - 1);
      AuthoriseMemberStaysLate(cfg, floor, Authorise(cfg, f, pd, k - 1).0, pd, pd.members[k - 1]);
    }
  }

  lemma FinalisedLate(cfg: Config, floor: nat, f: FabricState, rec: MemberReceipt, id: nat)
    requires Finalises(f, rec) && id in f.seqs && LateSeq(floor, f, f.seqs[id])
    ensures LateSeq(floor, Finalise(cfg, f, rec), Finalise(cfg, f, rec).seqs[id])
  {
  }

  lemma FinaliseStaysLate(cfg: Config, floor: nat, f: FabricState, rec: MemberReceipt)
    requires Late(cfg, floor, f) && Finalises(f, rec)
    ensures Late(cfg, floor, Finalise(cfg, f, rec))
  {
    FinaliseKeeps(cfg, f, rec);
    var f' := Finalise(cfg, f, rec);
    forall id | id in f'.seqs ensures LateSeq(floor, f', f'.seqs[id]) {
      FinalisedLate(cfg, floor, f, rec, id);
    }
  }

  lemma {:induction false} ReceiveStaysLate(cfg: Config, floor: nat, f: FabricState, recs: seq<MemberReceipt>)
    requires Late(cfg, floor, f)
    ensures Late(cfg, floor, Receive(cfg, f, recs).0)
  {
    if recs != [] {
      ReceiveStaysLate(cfg, floor, f, recs[..|recs| - 1]);
      var f1 := Receive(cfg, f, recs[..|recs| - 1]).0;
      if Finalises(f1, recs[|recs| - 1]) {
        FinaliseStaysLate(cfg, floor, f1, recs[|recs| - 1]);
      }
    }
  }

  lemma TakeStaysLate(cfg: Config, floor: nat, f: FabricState, st: Step)
    requires Late(cfg, floor, f) && HonestStep(st)
    ensures Late(cfg, floor, Take(cfg, f, st))
  {
    match st
    case Local(op) => LocalStaysLate(cfg, floor, f, op);
    case Dispatch(now, order, workerOrder, score) =>
      ScheduleKeeps(cfg, f, now, order, workerOrder, score);
      StaysLate(cfg, floor, f, Take(cfg, f, st));
    case Prepared(pd) => AuthoriseStaysLate(cfg, floor, f, pd, |pd.members|);
    case Receipts(recs) => ReceiveStaysLate(cfg, floor, f, recs);
  }

  lemma {:induction false} TakeAllStaysLate(cfg: Config, floor: nat, f: FabricState, steps: seq<Step>)
    requires Late(cfg, floor, f) && forall st | st in steps :: HonestStep(st)
    ensures Late(cfg, floor, TakeAll(cfg, f, steps))
  {
    if steps != [] {
      var front := steps[..|steps| - 1];
      assert forall st | st in front :: st in steps;
      TakeAllStaysLate(cfg, floor, f, front);
      TakeStaysLate(cfg, floor, TakeAll(cfg, f, front), steps[|steps| - 1]);
    }
  }

  /**
   A coordinator recovered from the snapshot of `f`, into any process and after any further
   steps, neither grants a prepared member nor finalises a receipt of a dispatch that `f`
   had already given out.
   */
  lemma ReplaySafety(cfg: Config, f: FabricState, into: FabricState, steps: seq<Step>, pm: PreparedMember,
                     rec: MemberReceipt)
    requires Inv(cfg, f) && forall st | st in steps :: HonestStep(st)
    ensures var f' := TakeAll(cfg, R.Restore(into, R.ImageOf(f)), steps);
      && (Honest(pm) && pm.auth.dispatch < f.next.dispatch ==> !Authorised(cfg, f', pm))
      && (rec.auth.dispatch < f.next.dispatch ==> !Finalises(f', rec))
  {
    RestoreIsLate(cfg, f.next.dispatch, f, into);
    TakeAllStaysLate(cfg, f.next.dispatch, R.Restore(into, R.ImageOf(f)), steps);
    var f' := TakeAll(cfg, R.Restore(into, R.ImageOf(f)), steps);
    if Honest(pm) && pm.auth.dispatch < f.next.dispatch {
      LateGrants(cfg, f.next.dispatch, f', pm);
    }
    if rec.auth.dispatch < f.next.dispatch {
      LateReceipts(cfg, f.next.dispatch, f', rec);
    }
  }

  lemma LateGrants(cfg: Config, floor: nat, f: FabricState, pm: PreparedMember)
    requires Late(cfg, floor, f) && Honest(pm) && pm.auth.dispatch < floor
    ensures !Authorised(cfg, f, pm)
  {
    if pm.auth.sequence in f.seqs {
      assert LateSeq(floor, f, f.seqs[pm.auth.sequence]);
    }
  }

  lemma LateReceipts(cfg: Config, floor: nat, f: FabricState, rec: MemberReceipt)
    requires Late(cfg, floor, f) && rec.auth.dispatch < floor
    ensures !Finalises(f, rec)
  {
    if rec.auth.sequence in f.seqs {
      assert LateSeq(floor, f, f.seqs[rec.auth.sequence]);
    }
  }

  /** In particular, nothing that was on the network when the snapshot was taken. */
  lemma NothingOldIsAccepted(cfg: Config, num: E.Numerics, actions: seq<N.Action>, into: FabricState, steps: seq<Step>,
                             pd: PreparedDecode, pm: PreparedMember, rec: MemberReceipt)
    requires forall st | st in steps :: HonestStep(st)
    ensures var n := N.Run(cfg, num, actions);
      var f' := TakeAll(cfg, R.Restore(into, R.ImageOf(n.fabric)), steps);
      && (pd in n.mail.prepared && pm in pd.members ==> !Authorised(cfg, f', pm))
      && (rec.(committedAt := 0) in n.mail.receipts ==> !Finalises(f', rec))
  {
    var n := N.Run(cfg, num, actions);
    NS.RunKeeps(cfg, num, actions);
    MailIsOld(cfg, num, n, pd, pm, rec);
    ReplaySafety(cfg, n.fabric, into, steps, pm, rec);
  }

  lemma MailIsOld(cfg: Config, num: E.Numerics, n: N.Net, pd: PreparedDecode, pm: PreparedMember, rec: MemberReceipt)
    requires NI.NetInv(cfg, num, n)
    ensures pd in n.mail.prepared && pm in pd.members ==> Honest(pm) && pm.auth.dispatch < n.fabric.next.dispatch
    ensures rec.(committedAt := 0) in n.mail.receipts ==> rec.auth.dispatch < n.fabric.next.dispatch
  {
    if pd in n.mail.prepared && pm in pd.members {
      assert NI.PreparedOk(num, n.fabric, n.mail.requests, pm);
    }
    if rec.(committedAt := 0) in n.mail.receipts {
      assert NI.ReceiptOk(num, n.fabric, n.mail.requests, rec.(committedAt := 0));
    }
  }
}
