/**
 The coordinator's own operations, as one step function: everything that happens to the
 fabric without a prepared result or a receipt arriving and without a dispatch.
 */
module Operations {
  import opened Types
  import opened Fabric
  import opened FabricInvariants
  import opened FabricSteps
  import M = Memory
  import R = Recovery

  datatype Operation =
    | Submit(req: DecodeRequest, workerOrder: seq<nat>, admit: bool)
    | Cancel(id: nat)
    | Retry(id: nat)
    | Register(worker: Worker)
    | MarkWorkerDead(dead: nat, order: seq<nat>)
    | RollEpoch
    | Advance(now: int, order: seq<nat>)
    | Complete(result: ExecutionResult)
    | AbortPending(abort: AbortPrepared)
    /** Snapshot, then recovery into this fabric or into a new process. */
    | Restart(inPlace: bool)

  ghost function Operate(cfg: Config, f: FabricState, op: Operation): FabricState {
    match op
    case Submit(req, workerOrder, admit) => Fabric.Submit(f, req, workerOrder, admit)
    case Cancel(id) => Fabric.Cancel(f, id)
    case Retry(id) => Fabric.Retry(cfg, f, id)
    case Register(worker) => Fabric.Register(cfg, f, worker)
    case MarkWorkerDead(dead, order) => Fabric.MarkWorkerDead(f, dead, order)
    case RollEpoch => Fabric.RollEpoch(f)
    case Advance(now, order) => Fabric.Advance(f, now, order)
    case Complete(result) => Fabric.Complete(cfg, f, result, |result.outcomes|)
    case AbortPending(abort) => Fabric.AbortPending(f, abort)
    case Restart(inPlace) => R.Restore(if inPlace then f else Start, R.ImageOf(f))
  }

  /** Sequences and statistics are left alone by all but admission and recovery. */
  predicate Plain(op: Operation) {
    !op.Submit? && !op.Restart?
  }

  /** The devices a worker may register with: a real capacity that fits 64 bits. */
  predicate Sized(op: Operation) {
    op.Register? ==> 0 < op.worker.device.memoryBytes < TWO64
  }

  lemma RegisterKeeps(cfg: Config, f: FabricState, f': FabricState)
    requires Inv(cfg, f) && f'.seqs == f.seqs && f'.ledger == f.ledger && f'.terminal == f.terminal
    requires f'.next == f.next && f'.stats == f.stats
    ensures Inv(cfg, f') && Steady(f, f') && Unmoved(f, f')
  {
    forall id | id in f.seqs ensures SeqOk(cfg, f', id, f'.seqs[id]) {
      assert SeqOk(cfg, f, id, f.seqs[id]);
    }
  }

  lemma RegisterKeepsMemory(cfg: Config, f: FabricState, w: Worker)
    requires 0 < w.device.memoryBytes < TWO64
    ensures MemoryKept(f, Fabric.Register(cfg, f, w))
  {
    if MemoryOk(f) {
      M.AdvertiseBalanced(f.memory, w.device.id, w.device.memoryBytes, cfg.headroomFloor);
    }
  }

  lemma OperateCalm(cfg: Config, f: FabricState, op: Operation)
    requires Inv(cfg, f) && Plain(op) && !op.Register? && !op.AbortPending?
    ensures Calm(cfg, f, Operate(cfg, f, op))
  {
    match op
    case Cancel(id) => CancelCalm(cfg, f, id);
    case Retry(id) => RetryCalm(cfg, f, id);
    case MarkWorkerDead(dead, order) => MarkWorkerDeadCalm(cfg, f, dead, order);
    case RollEpoch =>
    case Advance(now, order) => AdvanceCalm(cfg, f, now, order);
    case Complete(result) => CompleteCalm(cfg, f, result, |result.outcomes|);
  }

  lemma PlainKeeps(cfg: Config, f: FabricState, op: Operation)
    requires Inv(cfg, f) && Plain(op)
    ensures var f' := Operate(cfg, f, op);
      && Inv(cfg, f') && Steady(f, f') && Unmoved(f, f') && (Sized(op) ==> MemoryKept(f, f'))
  {
    match op
    case Register(worker) =>
      RegisterKeeps(cfg, f, Operate(cfg, f, op));
      if Sized(op) { RegisterKeepsMemory(cfg, f, worker); }
    case AbortPending(abort) =>
      AbortPendingKeeps(cfg, f, abort);
      AbortPendingUnmoved(f, abort);
    case _ =>
      OperateCalm(cfg, f, op);
      CalmKeeps(cfg, f, Operate(cfg, f, op));
      CalmUnmoved(cfg, f, Operate(cfg, f, op));
  }

  /** New sequences start with nothing committed. */
  ghost predicate Blank(f: FabricState, f': FabricState) {
    forall id | id in f'.seqs && id !in f.seqs ::
      f'.seqs[id].tally.generation == 1 && !f'.seqs[id].tally.digestEstablished
  }

  lemma OperateKeeps(cfg: Config, f: FabricState, op: Operation)
    requires Inv(cfg, f)
    ensures var f' := Operate(cfg, f, op); Inv(cfg, f') && Steady(f, f') && Blank(f, f')
  {
    match op
    case Submit(req, workerOrder, admit) => SubmitKeeps(cfg, f, req, workerOrder, admit);
    case Restart(inPlace) => R.RestoreKeeps(cfg, f, if inPlace then f else Start);
    case _ => PlainKeeps(cfg, f, op);
  }
}
