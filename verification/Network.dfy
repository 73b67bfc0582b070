/**
 One coordinator, any number of executors and an unreliable network between them.

 A message once sent may be delivered at any later time, any number of times, to any
 executor, or never: loss, duplication, delay, reordering and misrouting are all runs
 of this system. Executors may be started, and restarted empty, at any time; bare
 completions and aborts may arrive with any content. A run is any list of actions;
 an action that is not possible does nothing.
 */
module Network {
  import opened Types
  import F = Fabric
  import O = Operations
  import E = Executor

  /** Everything ever sent. */
  datatype Mail = Mail(
    requests: set<ExecutionRequest>,
    prepared: set<PreparedDecode>,
    grants: set<CommitGrant>,
    receipts: set<MemberReceipt>)

  /** `log` is the history of finalised receipts, per sequence. */
  datatype Net = Net(
    fabric: F.FabricState,
    executors: map<nat, E.ExecutorState>,
    mail: Mail,
    log: map<nat, seq<MemberReceipt>>)

  const Start: Net := Net(F.Start, map[], Mail({}, {}, {}, {}), map[])

  datatype Action =
    // the coordinator acts
    | Local(op: O.Operation)
    | Schedule(now: int, order: seq<nat>, workerOrder: seq<nat>, score: map<nat, real>)
    // deliveries to the coordinator
    | DeliverPrepared(pd: PreparedDecode)
    | DeliverReceipts(recs: seq<MemberReceipt>)
    // deliveries to executor `to`
    | DeliverRequest(to: nat, request: ExecutionRequest, ns: MemberSpec -> int)
    | DeliverGrant(to: nat, grant: CommitGrant)
    | DeliverAbort(to: nat, abort: AbortPrepared)
    | Boot(to: nat)

  function Entries(log: map<nat, seq<MemberReceipt>>, id: nat): seq<MemberReceipt> {
    if id in log then log[id] else []
  }

  function Logged(log: map<nat, seq<MemberReceipt>>, done: seq<MemberReceipt>): map<nat, seq<MemberReceipt>> {
    if done == [] then log else
      var rec := done[|done| - 1];
      var log1 := Logged(log, done[..|done| - 1]);
      log1[rec.auth.sequence := Entries(log1, rec.auth.sequence) + [rec]]
  }

  /** What a worker answers to a request: the prepared members, or none when the group failed. */
  function Answer(req: ExecutionRequest, r: Result<PreparedDecode>): PreparedDecode {
    if r.Ok? then r.value
    else PreparedDecode(req.dispatch, req.epoch, req.worker, req.workerBoot, [], 0, r.error, [])
  }

  function Grants(replies: seq<F.Reply>): set<CommitGrant> {
    set r | r in replies && r.SendGrant? :: r.grant
  }

  ghost function Apply(cfg: F.Config, num: E.Numerics, n: Net, a: Action): Net {
    var f := n.fabric;
    match a
    case Local(op) => n.(fabric := O.Operate(cfg, f, op))
    case Schedule(now, order, workerOrder, score) =>
      var (f', out) := F.Schedule(cfg, f, now, order, workerOrder, score);
      n.(fabric := f', mail := n.mail.(requests := n.mail.requests + set r | r in out))
    case DeliverPrepared(pd) =>
      if pd !in n.mail.prepared then n else
        var (f', out) := F.Authorise(cfg, f, pd, |pd.members|);
        n.(fabric := f', mail := n.mail.(grants := n.mail.grants + Grants(out)))
    case DeliverReceipts(recs) =>
      // the coordinator may stamp the time before it applies a receipt
      if exists r | r in recs :: r.(committedAt := 0) !in n.mail.receipts then n else
        var (f', done) := F.Receive(cfg, f, recs);
        n.(fabric := f', log := Logged(n.log, done))
    case DeliverRequest(to, req, ns) =>
      if to !in n.executors || req !in n.mail.requests then n else
        var (e, r) := E.Prepare(num, n.executors[to], req, ns);
        n.(executors := n.executors[to := e], mail := n.mail.(prepared := n.mail.prepared + {Answer(req, r)}))
    case DeliverGrant(to, g) =>
      if to !in n.executors || g !in n.mail.grants then n else
        var (e, r) := E.Commit(n.executors[to], g);
        n.(executors := n.executors[to := e],
           mail := n.mail.(receipts := n.mail.receipts + if r.Ok? then {r.value} else {}))
    case DeliverAbort(to, abort) =>
      if to !in n.executors then n else n.(executors := n.executors[to := E.Abort(n.executors[to], abort).0])
    case Boot(to) => n.(executors := n.executors[to := E.Fresh])
  }

  ghost function RunFrom(cfg: F.Config, num: E.Numerics, n: Net, actions: seq<Action>): Net {
    if actions == [] then n
    else Apply(cfg, num, RunFrom(cfg, num, n, actions[..|actions| - 1]), actions[|actions| - 1])
  }

  ghost function Run(cfg: F.Config, num: E.Numerics, actions: seq<Action>): Net {
    RunFrom(cfg, num, Start, actions)
  }
}
