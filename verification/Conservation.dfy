/** What is counted is what happened. */
module Conservation {
  // Statistics, tenant totals and device memory over whole runs.

  import opened Types
  import opened Fabric
  import opened FabricInvariants
  import opened FabricSteps
  import opened MapSum
  import O = Operations
  import R = Recovery
  import N = Network
  import NI = NetworkInvariants
  import NS = NetworkSteps
  import E = Executor
  import M = Memory

  /** Every receipt counted is one finalised generation of some sequence. */
  ghost predicate Counted(f: FabricState) {
    f.stats.receiptCount == f.stats.decodeSteps == Total(f.seqs, R.Steps)
  }

  /** The tokens a sequence has produced here for `tenant`: those beyond the ones it arrived with. */
  function Produced(tenant: nat): Sequence -> nat {
    (s: Sequence) =>
      if s.req.tenant == tenant
        && s.tally.generated >= s.req.pregenerated then s.tally.generated - s.req.pregenerated else 0
  }

  function Capped(v: nat): nat {
    if v < TWO64 then v else TWO64 - 1
  }

  predicate Offset(s: Sequence) {
    s.tally.generation + s.req.pregenerated == s.tally.generated + 1
  }

  /** Generations count produced tokens, and each tenant's total is the sum over its sequences. */
  ghost predicate TenantsCounted(f: FabricState) {
    && (forall id | id in f.seqs :: Offset(f.seqs[id]))
    && (forall tenant: nat :: Tokens(f, tenant) == Capped(Total(f.seqs, Produced(tenant))))
  }

  /** A change that keeps whichever of the three accounts were right. */
  ghost predicate Accounted(f: FabricState, f': FabricState) {
    && (Counted(f) ==> Counted(f'))
    && (TenantsCounted(f) ==> TenantsCounted(f'))
    && MemoryKept(f, f')
  }

  lemma UnmovedCounts(f: FabricState, f': FabricState)
    requires Unmoved(f, f')
    ensures Counted(f) ==> Counted(f')
    ensures TenantsCounted(f) ==> TenantsCounted(f')
  {
    TotalSame(f.seqs, f'.seqs, R.Steps, R.Steps);
    forall tenant: nat ensures Total(f'.seqs, Produced(tenant)) == Total(f.seqs, Produced(tenant)) {
      TotalSame(f.seqs, f'.seqs, Produced(tenant), Produced(tenant));
    }
  }

  lemma SubmitAccounted(cfg: Config, f: FabricState, req: DecodeRequest, workerOrder: seq<nat>, admit: bool)
    ensures Accounted(f, Submit(f, req, workerOrder, admit))
  {
    var f', s := Submit(f, req, workerOrder, admit), NewSequence(req);
    if f' != f {
      TotalPut(f.seqs, R.Steps, req.sequence, s);
      forall tenant: nat ensures Total(f'.seqs, Produced(tenant)) == Total(f.seqs, Produced(tenant)) {
        TotalPut(f.seqs, Produced(tenant), req.sequence, s);
      }
    }
  }

  lemma RestartCounts(cfg: Config, f: FabricState, into: FabricState)
    requires Inv(cfg, f)
    ensures Counted(f) ==> Counted(R.Restore(into, R.ImageOf(f)))
    ensures MemoryOk(into) ==> MemoryOk(R.Restore(into, R.ImageOf(f)))
  {
    R.RestoreKeeps(cfg, f, into);
    TotalSame(f.seqs, R.Restore(into, R.ImageOf(f)).seqs, R.Steps, R.Steps);
  }

  lemma FinaliseTenants(cfg: Config, f: FabricState, rec: MemberReceipt)
    requires Inv(cfg, f) && Finalises(f, rec) && TenantsCounted(f)
    ensures TenantsCounted(Finalise(cfg, f, rec))
  {
    var f', id := Finalise(cfg, f, rec), rec.auth.sequence;
    assert SeqOk(cfg, f, id, f.seqs[id]) && Offset(f.seqs[id]);
    forall tenant: nat ensures Tokens(f', tenant) == Capped(Total(f'.seqs, Produced(tenant))) {
      TotalPut(f.seqs, Produced(tenant), id, f'.seqs[id]);
      assert Tokens(f, tenant) == Capped(Total(f.seqs, Produced(tenant)));
    }
  }

  lemma FinaliseCounted(cfg: Config, f: FabricState, rec: MemberReceipt)
    requires Finalises(f, rec) && SeqOk(cfg, f, rec.auth.sequence, f.seqs[rec.auth.sequence]) && Counted(f)
    ensures Counted(Finalise(cfg, f, rec))
  {
    TotalPut(f.seqs, R.Steps, rec.auth.sequence, Finalise(cfg, f, rec).seqs[rec.auth.sequence]);
  }

  lemma FinaliseAccounted(cfg: Config, f: FabricState, rec: MemberReceipt)
    requires Inv(cfg, f) && Finalises(f, rec)
    ensures Accounted(f, Finalise(cfg, f, rec))
  {
    FinaliseKeeps(cfg, f, rec);
    assert SeqOk(cfg, f, rec.auth.sequence, f.seqs[rec.auth.sequence]);
    if Counted(f) {
      FinaliseCounted(cfg, f, rec);
    }
    if TenantsCounted(f) {
      FinaliseTenants(cfg, f, rec);
    }
  }

  lemma {:induction false} ReceiveAccounted(cfg: Config, f: FabricState, recs: seq<MemberReceipt>)
    requires Inv(cfg, f)
    ensures Inv(cfg, Receive(cfg, f, recs).0) && Accounted(f, Receive(cfg, f, recs).0)
  {
    if recs != [] {
      ReceiveAccounted(cfg, f, recs[..|recs| - 1]);
      var f1, rec := Receive(cfg, f, recs[..|recs| - 1]).0, recs[|recs| - 1];
      if Finalises(f1, rec) {
        FinaliseAccounted(cfg, f1, rec);
        FinaliseKeeps(cfg, f1, rec);
      }
    }
  }

  // ---------------------------------------------------------------------------
  // Runs

  predicate Restarts(a: N.Action) {
    a.Local? && a.op.Restart?
  }

  predicate Sized(a: N.Action) {
    a.Local? ==> O.Sized(a.op)
  }

  lemma LocalAccounted(cfg: Config, f: FabricState, op: O.Operation)
    requires Inv(cfg, f)
    ensures var f' := O.Operate(cfg, f, op);
      && (Counted(f) ==> Counted(f')) && (TenantsCounted(f) && !op.Restart? ==> TenantsCounted(f'))
      && (O.Sized(op) ==> MemoryKept(f, f'))
  {
    if op.Submit? {
      SubmitAccounted(cfg, f, op.req, op.workerOrder, op.admit);
    } else if op.Restart? {
      RestartCounts(cfg, f, if op.inPlace then f else Start);
    } else {
      O.PlainKeeps(cfg, f, op);
      UnmovedCounts(f, O.Operate(cfg, f, op));
    }
  }

  lemma ActionAccounted(cfg: Config, num: E.Numerics, n: N.Net, a: N.Action)
    requires NI.NetInv(cfg, num, n)
    ensures var f, f' := n.fabric, N.Apply(cfg, num, n, a).fabric;
      && (Counted(f) ==> Counted(f')) && (TenantsCounted(f) && !Restarts(a) ==> TenantsCounted(f'))
      && (Sized(a) ==> MemoryKept(f, f'))
  {
    var f, f' := n.fabric, N.Apply(cfg, num, n, a).fabric;
    match a
    case Local(op) => LocalAccounted(cfg, f, op);
    case Schedule(now, order, workerOrder, score) =>
      ScheduleKeeps(cfg, f, now, order, workerOrder, score);
      UnmovedCounts(f, f');
    case DeliverPrepared(pd) =>
      if pd in n.mail.prepared {
        NS.AuthoriseUpTo(cfg, num, f, n.mail, pd, |pd.members|);
        UnmovedCounts(f, f');
      }
    case DeliverReceipts(recs) => ReceiveAccounted(cfg, f, recs);
    case _ =>
  }

  /**
   Over every run: receipts and decode steps both number the finalised generations of all
   sequences, restarts included. While the coordinator is not restarted, every generation
   number counts produced tokens and each tenant's total is the sum over its sequences,
   capped at 64 bits. While every registered device has a real capacity, each device's
   reserved counter is the sum of its live reservations and stays within capacity.
   */
  lemma {:induction false} Conserved(cfg: Config, num: E.Numerics, actions: seq<N.Action>)
    ensures var f := N.Run(cfg, num, actions).fabric;
      && Counted(f)
      && ((forall a | a in actions :: !Restarts(a)) ==> TenantsCounted(f))
      && ((forall a | a in actions :: Sized(a)) ==> MemoryOk(f))
  {
    if actions != [] {
      var front, a := actions[..|actions| - 1], actions[|actions| - 1];
      Conserved(cfg, num, front);
      NS.RunKeeps(cfg, num, front);
      assert a in actions && forall b | b in front :: b in actions;
      ActionAccounted(cfg, num, N.Run(cfg, num, front), a);
    }
  }

  /** In a balanced memory the release of any reservation takes away exactly what it added. */
  lemma ReleaseExact(cfg: Config, num: E.Numerics, actions: seq<N.Action>, id: nat)
    requires forall a | a in actions :: Sized(a)
    ensures var m := N.Run(cfg, num, actions).fabric.memory;
      id != NULL && id in m.reservations ==>
        var r := m.reservations[id];
        && M.Device(M.Release(m, id), r.device).reserved + r.bytes == M.Device(m, r.device).reserved
        && M.Release(M.Release(m, id), id) == M.Release(m, id)
  {
    Conserved(cfg, num, actions);
    M.ReleaseBalanced(N.Run(cfg, num, actions).fabric.memory, id);
  }
}
