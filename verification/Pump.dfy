/**
 The coordinator driving one executor by itself: schedule, then prepare, authorise, commit
 and finalise every dispatched group in turn.
 */
module Pump {
  import opened Types
  import F = Fabric
  import E = Executor

  /** The coordinator and the executor it drives. */
  datatype Pair = Pair(fabric: F.FabricState, executor: E.ExecutorState)

  /** What the clock, the hash maps and the scores happen to be in one cycle. */
  datatype Cycle = Cycle(now: int, order: seq<nat>, workerOrder: seq<nat>, score: map<nat, real>, ns: MemberSpec -> int)

  /** A failed prepare is reported as a retryable failure of every member. */
  function Failure(req: ExecutionRequest): ExecutionResult {
    ExecutionResult(req.dispatch, req.epoch, req.worker, req.workerBoot,
      seq(|req.members|, i requires 0 <= i < |req.members| =>
        MemberOutcome(req.members[i].sequence, RETRYABLE_FAILURE, req.members[i].attempt, req.members[i].generation,
                      0, 0, false, ERR_OK, [], true, 0, 0, 0, 0, 0)))
  }

  /** Commits the granted members and aborts the others, in order. */
  function Settle(e: E.ExecutorState, replies: seq<F.Reply>, now: int): (E.ExecutorState, seq<MemberReceipt>) {
    if replies == [] then (e, []) else
      var (e1, recs) := Settle(e, replies[..|replies| - 1], now);
      match replies[|replies| - 1]
      case SendAbort(abort, _) => (E.Abort(e1, abort).0, recs)
      case SendGrant(g) =>
        var (e2, r) := E.Commit(e1, g);
        (e2, if r.Ok? then recs + [r.value.(committedAt := now)] else recs)
  }

  /** One dispatched group, from prepare to receipts. */
  function Drive(cfg: F.Config, num: E.Numerics, p: Pair, req: ExecutionRequest, c: Cycle): Pair {
    var (e1, r) := E.Prepare(num, p.executor, req, c.ns);
    if r.Err? then Pair(F.Complete(cfg, p.fabric, Failure(req), |req.members|), e1) else
      var (f1, replies) := F.Authorise(cfg, p.fabric, r.value, |r.value.members|);
      var (e2, recs) := Settle(e1, replies, c.now);
      Pair(F.Receive(cfg, f1, recs).0, e2)
  }

  function DriveAll(cfg: F.Config, num: E.Numerics, p: Pair, reqs: seq<ExecutionRequest>, c: Cycle): Pair {
    if reqs == [] then p else Drive(cfg, num, DriveAll(cfg, num, p, reqs[..|reqs| - 1], c), reqs[|reqs| - 1], c)
  }

  function PumpOnce(cfg: F.Config, num: E.Numerics, p: Pair, c: Cycle): (Pair, seq<ExecutionRequest>) {
    var (f1, out) := F.Schedule(cfg, F.Advance(p.fabric, c.now, c.order), c.now, c.order, c.workerOrder, c.score);
    (DriveAll(cfg, num, Pair(f1, p.executor), out, c), out)
  }
}
