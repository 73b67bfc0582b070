/**
 Runs in which the coordinator may go back to any earlier snapshot. Going back loses the
 tokens finalised since, while messages and executors of the lost stretch stay as they are.
 */
module Rewinds {
  // Dispatch ids are given out a second time. What the coordinator then holds is still
  // finalised exactly once and still one recurrence.

  import opened Types
  import opened Network
  import opened NetworkInvariants
  import opened Collisions
  import F = Fabric
  import FI = FabricInvariants
  import FS = FabricSteps
  import O = Operations
  import R = Recovery
  import E = Executor
  import G = Guarantees

  /** A snapshot, with the receipts finalised up to it. */
  datatype Point = Point(fabric: F.FabricState, log: map<nat, seq<MemberReceipt>>)

  /** An executor has held or staged this position of the recurrence from `origin` for a sequence. */
  datatype Spot = Spot(sequence: nat, origin: E.Origin, position: nat)

  /** `seen` is the history of spots. */
  datatype World = World(net: Net, points: seq<Point>, seen: set<Spot>)

  datatype Move =
    | Act(action: Action)
    | Keep
    | Rewind(i: nat, inPlace: bool)

  /** Where the members of a request are staged, up to the first that is refused. */
  ghost function Staged(num: E.Numerics, e: E.ExecutorState, req: ExecutionRequest, k: nat, ns: MemberSpec -> int)
    : set<Spot>
    requires k <= |req.members|
  {
    if k == 0 then {} else
      var (e1, done) := E.PrepareUpTo(num, e, req, k - 1, ns);
      Staged(num, e, req, k - 1, ns)
        + if done.Ok? then SpotsOf(req.members[k - 1].sequence, E.Adopt(num, e1, req.members[k - 1])) else {}
  }

  /** The state as it is held, and one step on. */
  function SpotsOf(id: nat, st: E.SeqState): set<Spot> {
    {Spot(id, st.origin, st.tokens), Spot(id, st.origin, st.tokens + 1)}
  }

  ghost function Sighted(num: E.Numerics, n: Net, a: Action): set<Spot> {
    match a
    case DeliverRequest(to, req, ns) =>
      if to in n.executors && req in n.mail.requests
      then Staged(num, n.executors[to], req, |req.members|, ns) else {}
    case _ => {}
  }

  ghost function Step(cfg: F.Config, num: E.Numerics, w: World, m: Move): World {
    match m
    case Act(a) => w.(net := Apply(cfg, num, w.net, a), seen := w.seen + Sighted(num, w.net, a))
    case Keep => w.(points := w.points + [Point(w.net.fabric, w.net.log)])
    case Rewind(i, inPlace) =>
      if i >= |w.points| then w else
        w.(net := w.net.(fabric := R.Restore(if inPlace then w.net.fabric else F.Start, R.ImageOf(w.points[i].fabric)),
                         log := w.points[i].log))
  }

  ghost function Travel(cfg: F.Config, num: E.Numerics, moves: seq<Move>): World {
    if moves == [] then World(Network.Start, [], {})
    else Step(cfg, num, Travel(cfg, num, moves[..|moves| - 1]), moves[|moves| - 1])
  }

  // ---------------------------------------------------------------------------
  // What is kept. Without `strict` nothing is said about digests and states.

  /** A step of the recurrence from `o` that an executor has staged for sequence `id`. */
  predicate StepFrom(num: E.Numerics, seen: set<Spot>, id: nat, o: E.Origin, pos: nat, pre: nat, post: nat,
                     token: nat) {
    && Spot(id, o, pos) in seen && Spot(id, o, pos + 1) in seen
    && LawfulFrom(num, o, pos, pre, post, token)
  }

  /** One such step, from some origin of the state that `a` names. */
  ghost predicate SomeStep(num: E.Numerics, seen: set<Spot>, a: Authority, pos: nat, pre: nat, post: nat, token: nat) {
    exists o: E.Origin :: o.state == a.state && StepFrom(num, seen, a.sequence, o, pos, pre, post, token)
  }

  /** No two of these spots are different states with one digest. */
  ghost predicate Distinct(num: E.Numerics, seen: set<Spot>) {
    forall a, b {:trigger Clash(num, a, b)} | a in seen && b in seen :: !Clash(num, a, b)
  }

  predicate Clash(num: E.Numerics, a: Spot, b: Spot) {
    Collide(num, a.origin, a.position, b.origin, b.position)
  }

  ghost predicate PreparedFine(num: E.Numerics, strict: bool, seen: set<Spot>, pm: PreparedMember) {
    FS.Honest(pm) && (strict ==> SomeStep(num, seen, pm.auth, pm.before, pm.pre, pm.post, pm.outcome.token % TWO32))
  }

  ghost predicate GrantFine(num: E.Numerics, strict: bool, seen: set<Spot>, g: CommitGrant) {
    strict ==> SomeStep(num, seen, g.auth, g.position, g.pre, g.post, g.token)
  }

  ghost predicate ReceiptFine(num: E.Numerics, strict: bool, seen: set<Spot>, r: MemberReceipt) {
    strict ==> SomeStep(num, seen, r.auth, r.before, r.pre, r.post, r.token)
  }

  ghost predicate MailFine(num: E.Numerics, strict: bool, seen: set<Spot>, mail: Mail) {
    && (forall req | req in mail.requests :: req.dispatch != NULL)
    && (forall pd, pm | pd in mail.prepared && pm in pd.members :: PreparedFine(num, strict, seen, pm))
    && (forall g | g in mail.grants :: GrantFine(num, strict, seen, g))
    && (forall r | r in mail.receipts :: ReceiptFine(num, strict, seen, r))
  }

  predicate StagedFrom(num: E.Numerics, seen: set<Spot>, st: E.SeqState, t: E.Tentative, q: nat) {
    Spot(t.auth.sequence, st.origin, q) in seen && E.StagedAt(num, st.origin, t, q)
  }

  ghost predicate StateFine(num: E.Numerics, seen: set<Spot>, sid: nat, st: E.SeqState) {
    && E.OnOrbit(num, st) && st.origin.state == sid
    && (st.tentative.Some? ==> exists q: nat :: StagedFrom(num, seen, st, st.tentative.value, q))
  }

  ghost predicate ExecutorFine(num: E.Numerics, strict: bool, seen: set<Spot>, e: E.ExecutorState) {
    && (strict ==> forall sid | sid in e.states :: StateFine(num, seen, sid, e.states[sid]))
    && (forall k | k in e.receipts :: ReceiptFine(num, strict, seen, e.receipts[k]))
  }

  ghost predicate Chain(num: E.Numerics, strict: bool, seen: set<Spot>, id: nat, t: F.Tally, es: seq<MemberReceipt>) {
    && t.generation == |es| + 1
    && (t.digestEstablished <==> es != [])
    && (es != [] ==> es[|es| - 1].post == t.digest)
    && (forall i | 0 <= i < |es| :: EntryOk(id, t, es, i))
    && (forall i | 0 <= i < |es| :: ReceiptFine(num, strict, seen, es[i]))
  }

  ghost predicate PointFine(cfg: F.Config, num: E.Numerics, strict: bool, seen: set<Spot>, p: Point) {
    && FI.Inv(cfg, p.fabric) && p.log.Keys <= p.fabric.seqs.Keys
    && (forall id | id in p.fabric.seqs :: Chain(num, strict, seen, id, p.fabric.seqs[id].tally, Entries(p.log, id)))
  }

  ghost predicate NetFine(cfg: F.Config, num: E.Numerics, strict: bool, seen: set<Spot>, n: Net) {
    && PointFine(cfg, num, strict, seen, Point(n.fabric, n.log)) && MailFine(num, strict, seen, n.mail)
    && (forall e | e in n.executors :: ExecutorFine(num, strict, seen, n.executors[e]))
  }

  ghost predicate Fine(cfg: F.Config, num: E.Numerics, strict: bool, w: World) {
    && NetFine(cfg, num, strict, w.seen, w.net)
    && (forall i | 0 <= i < |w.points| :: PointFine(cfg, num, strict, w.seen, w.points[i]))
  }

  // ---------------------------------------------------------------------------
  // The coordinator

  lemma QuietFine(cfg: F.Config, num: E.Numerics, strict: bool, seen: set<Spot>, f: F.FabricState, f': F.FabricState,
                  log: map<nat, seq<MemberReceipt>>)
    requires PointFine(cfg, num, strict, seen, Point(f, log)) && FI.Inv(cfg, f') && FI.Steady(f, f') && O.Blank(f, f')
    ensures PointFine(cfg, num, strict, seen, Point(f', log))
  {
    forall id | id in f'.seqs ensures Chain(num, strict, seen, id, f'.seqs[id].tally, Entries(log, id)) {
      if id in f.seqs {
        assert Chain(num, strict, seen, id, f.seqs[id].tally, Entries(log, id));
      }
    }
  }

  lemma RewoundFine(cfg: F.Config, num: E.Numerics, strict: bool, seen: set<Spot>, into: F.FabricState, p: Point)
    requires PointFine(cfg, num, strict, seen, p)
    ensures PointFine(cfg, num, strict, seen, Point(R.Restore(into, R.ImageOf(p.fabric)), p.log))
  {
    R.RestoreKeeps(cfg, p.fabric, into);
    QuietFine(cfg, num, strict, seen, p.fabric, R.Restore(into, R.ImageOf(p.fabric)), p.log);
  }

  ghost predicate RepliesFine(num: E.Numerics, strict: bool, seen: set<Spot>, out: seq<F.Reply>) {
    forall r | r in out && r.SendGrant? :: GrantFine(num, strict, seen, r.grant)
  }

  lemma AuthoriseOneFine(cfg: F.Config, num: E.Numerics, strict: bool, seen: set<Spot>, f: F.FabricState,
                         pd: PreparedDecode,
                         pm: PreparedMember)
    requires FI.Inv(cfg, f) && PreparedFine(num, strict, seen, pm)
    ensures var (f', reply) := F.AuthoriseMember(cfg, f, pd, pm);
      FI.Inv(cfg, f') && FI.Steady(f, f') && FS.Unmoved(f, f') && RepliesFine(num, strict, seen, [reply])
  {
    FS.AuthoriseMemberKeeps(cfg, f, pd, pm);
  }

  lemma {:induction false} AuthoriseFine(cfg: F.Config, num: E.Numerics, strict: bool, seen: set<Spot>,
                                         f: F.FabricState,
                                         pd: PreparedDecode, k: nat)
    requires FI.Inv(cfg, f) && k <= |pd.members| && forall pm | pm in pd.members :: PreparedFine(num, strict, seen, pm)
    ensures var (f', out) := F.Authorise(cfg, f, pd, k);
      FI.Inv(cfg, f') && FI.Steady(f, f') && FS.Unmoved(f, f') && RepliesFine(num, strict, seen, out)
  {
    if k > 0 {
      AuthoriseFine(cfg, num, strict, seen, f, pd, k - 1);
      var (f1, out) := F.Authorise(cfg, f, pd, k - 1);
      AuthoriseOneFine(cfg, num, strict, seen, f1, pd, pd.members[k - 1]);
      FI.SteadyTrans(cfg, f, f1, F.AuthoriseMember(cfg, f1, pd, pd.members[k - 1]).0);
    }
  }

  lemma ChainExtends(num: E.Numerics, strict: bool, seen: set<Spot>, id: nat, t: F.Tally, t': F.Tally,
                     es: seq<MemberReceipt>,
                     rec: MemberReceipt)
    requires Chain(num, strict, seen, id, t, es) && ReceiptFine(num, strict, seen, rec) && rec.auth.sequence == id
    requires rec.auth.generation == t.generation && rec.before == t.generated
      && (t.digestEstablished ==> rec.pre == t.digest)
    requires t'.generation == t.generation + 1 && t'.generated == t.generated + 1
    requires t'.digest == rec.post && t'.digestEstablished
    ensures Chain(num, strict, seen, id, t', es + [rec])
  {
    var es' := es + [rec];
    forall i | 0 <= i < |es'| ensures EntryOk(id, t', es', i) && ReceiptFine(num, strict, seen, es'[i]) {
      if i < |es| {
        assert EntryOk(id, t, es, i) && ReceiptFine(num, strict, seen, es[i]);
      }
    }
  }

  lemma FinaliseFine(cfg: F.Config, num: E.Numerics, strict: bool, seen: set<Spot>, f: F.FabricState,
                     log: map<nat, seq<MemberReceipt>>, rec: MemberReceipt)
    requires PointFine(cfg, num, strict, seen, Point(f, log)) && F.Finalises(f, rec)
      && ReceiptFine(num, strict, seen, rec)
    ensures PointFine(cfg, num, strict, seen,
                      Point(F.Finalise(cfg, f, rec), log[rec.auth.sequence := Entries(log, rec.auth.sequence) + [rec]]))
  {
    var f', id, es := F.Finalise(cfg, f, rec), rec.auth.sequence, Entries(log, rec.auth.sequence);
    FS.FinaliseKeeps(cfg, f, rec);
    FS.FinaliseExtends(cfg, f, rec);
    FS.FinaliseOthers(cfg, f, rec);
    assert Chain(num, strict, seen, id, f.seqs[id].tally, es);
    ChainExtends(num, strict, seen, id, f.seqs[id].tally, f'.seqs[id].tally, es, rec);
    ExtendedFine(cfg, num, strict, seen, f, f', log, id, es + [rec]);
  }

  lemma ExtendedFine(cfg: F.Config, num: E.Numerics, strict: bool, seen: set<Spot>, f: F.FabricState,
                     f': F.FabricState, log: map<nat, seq<MemberReceipt>>, id: nat, es: seq<MemberReceipt>)
    requires PointFine(cfg, num, strict, seen, Point(f, log)) && FI.Inv(cfg, f')
    requires f'.seqs.Keys == f.seqs.Keys && id in f.seqs && Chain(num, strict, seen, id, f'.seqs[id].tally, es)
    requires forall k | k in f.seqs && k != id :: f'.seqs[k] == f.seqs[k]
    ensures PointFine(cfg, num, strict, seen, Point(f', log[id := es]))
  {
    forall k | k in f'.seqs ensures Chain(num, strict, seen, k, f'.seqs[k].tally, Entries(log[id := es], k)) {
      if k != id {
        assert Chain(num, strict, seen, k, f.seqs[k].tally, Entries(log, k));
      }
    }
  }

  lemma {:induction false} ReceiveFine(cfg: F.Config, num: E.Numerics, strict: bool, seen: set<Spot>, f: F.FabricState,
                                       log: map<nat, seq<MemberReceipt>>, recs: seq<MemberReceipt>)
    requires PointFine(cfg, num, strict, seen, Point(f, log)) && forall r | r in recs ::
      ReceiptFine(num, strict, seen, r)
    ensures var (f', done) := F.Receive(cfg, f, recs); PointFine(cfg, num, strict, seen, Point(f', Logged(log, done)))
  {
    if recs != [] {
      var front, rec := recs[..|recs| - 1], recs[|recs| - 1];
      ReceiveFine(cfg, num, strict, seen, f, log, front);
      var (f1, done) := F.Receive(cfg, f, front);
      if F.Finalises(f1, rec) {
        FinaliseFine(cfg, num, strict, seen, f1, Logged(log, done), rec);
        assert (done + [rec])[..|done|] == done;
      }
    }
  }

  // ---------------------------------------------------------------------------
  // Executors

  lemma AdoptFine(num: E.Numerics, seen: set<Spot>, e: E.ExecutorState, m: MemberSpec)
    requires ExecutorFine(num, true, seen, e)
    ensures StateFine(num, seen, m.state.id, E.Adopt(num, e, m))
  {
    var st := if m.state.id in e.states then e.states[m.state.id] else E.Initial(num, m);
    assert StateFine(num, seen, m.state.id, st);
    E.CatchUpFollowsOrbit(num, st, m.generatedTokens);
    if st.tentative.Some? {
      var q: nat :| StagedFrom(num, seen, st, st.tentative.value, q);
      assert StagedFrom(num, seen, E.Adopt(num, e, m), st.tentative.value, q);
    }
  }

  lemma StageFine(num: E.Numerics, seen: set<Spot>, st: E.SeqState, req: ExecutionRequest, m: MemberSpec,
                  proposal: nat, ns: int)
    requires StateFine(num, seen, m.state.id, st) && SpotsOf(m.sequence, st) <= seen && req.dispatch != NULL
    ensures var t := E.Stage(num, st, req, m, proposal);
      StateFine(num, seen, m.state.id, st.(tentative := Some(t)))
        && PreparedFine(num, true, seen, E.Report(num, st, m, t, ns))
  {
    var t := E.Stage(num, st, req, m, proposal);
    E.StageFollowsOrbit(num, st, req, m, proposal, ns);
    assert StagedFrom(num, seen, st.(tentative := Some(t)), t, st.tokens);
    var pm := E.Report(num, st, m, t, ns);
    assert StepFrom(num, seen, m.sequence, st.origin, pm.before, pm.pre, pm.post, pm.outcome.token % TWO32);
  }

  lemma PrepareMemberFine(num: E.Numerics, strict: bool, seen: set<Spot>, e: E.ExecutorState, req: ExecutionRequest,
                          m: MemberSpec, ns: int)
    requires ExecutorFine(num, strict, seen, e) && req.dispatch != NULL
    requires SpotsOf(m.sequence, E.Adopt(num, e, m)) <= seen
    ensures var (e', r) := E.PrepareMember(num, e, req, m, ns);
      ExecutorFine(num, strict, seen, e') && (r.Ok? ==> PreparedFine(num, strict, seen, r.value))
  {
    if strict {
      AdoptFine(num, seen, e, m);
      StageFine(num, seen, E.Adopt(num, e, m), req, m, e.nextProposal + 1, ns);
    }
  }

  lemma {:induction false} PrepareFine(num: E.Numerics, strict: bool, seen: set<Spot>, e: E.ExecutorState,
                                       req: ExecutionRequest,
                                       k: nat, ns: MemberSpec -> int)
    requires ExecutorFine(num, strict, seen, e) && req.dispatch != NULL && k <= |req.members|
    requires Staged(num, e, req, k, ns) <= seen
    ensures var (e', r) := E.PrepareUpTo(num, e, req, k, ns);
      ExecutorFine(num, strict, seen, e')
        && (r.Ok? ==> forall pm | pm in r.value :: PreparedFine(num, strict, seen, pm))
  {
    if k > 0 {
      PrepareFine(num, strict, seen, e, req, k - 1, ns);
      var (e1, done) := E.PrepareUpTo(num, e, req, k - 1, ns);
      if done.Ok? {
        PrepareMemberFine(num, strict, seen, e1, req, req.members[k - 1], ns(req.members[k - 1]));
      }
    }
  }

  /** A grant that matches a staged transition sits at the position it was staged at, or two states collide. */
  lemma PromoteFine(num: E.Numerics, seen: set<Spot>, e: E.ExecutorState, g: CommitGrant)
    requires Distinct(num, seen) && ExecutorFine(num, true, seen, e) && GrantFine(num, true, seen, g)
      && E.Promotes(e, g)
    ensures StateFine(num, seen, g.auth.state, E.Promote(e.states[g.auth.state]))
  {
    var st := e.states[g.auth.state];
    assert StateFine(num, seen, g.auth.state, st);
    var t := st.tentative.value;
    var q: nat :| StagedFrom(num, seen, st, t, q);
    var o: E.Origin :| o.state == g.auth.state
      && StepFrom(num, seen, g.auth.sequence, o, g.position, g.pre, g.post, g.token);
    var a, b := Spot(t.auth.sequence, st.origin, q), Spot(g.auth.sequence, o, g.position);
    assert !Clash(num, a, b);
  }

  lemma CommitFine(num: E.Numerics, strict: bool, seen: set<Spot>, e: E.ExecutorState, g: CommitGrant)
    requires (strict ==> Distinct(num, seen)) && ExecutorFine(num, strict, seen, e) && GrantFine(num, strict, seen, g)
    ensures var (e', r) := E.Commit(e, g);
      ExecutorFine(num, strict, seen, e') && (r.Ok? ==> ReceiptFine(num, strict, seen, r.value))
  {
    if strict && E.Promotes(e, g) {
      PromoteFine(num, seen, e, g);
    }
  }

  lemma AbortFine(num: E.Numerics, strict: bool, seen: set<Spot>, e: E.ExecutorState, a: AbortPrepared)
    requires ExecutorFine(num, strict, seen, e)
    ensures ExecutorFine(num, strict, seen, E.Abort(e, a).0)
  {
    if strict && a.auth.state in e.states {
      assert StateFine(num, seen, a.auth.state, e.states[a.auth.state]);
    }
  }

  // ---------------------------------------------------------------------------
  // Every move

  lemma DispatchFine(cfg: F.Config, num: E.Numerics, strict: bool, seen: set<Spot>, n: Net, now: int, order: seq<nat>,
                     workerOrder: seq<nat>, score: map<nat, real>)
    requires NetFine(cfg, num, strict, seen, n)
    ensures NetFine(cfg, num, strict, seen, Apply(cfg, num, n, Action.Schedule(now, order, workerOrder, score)))
  {
    var (f', out) := F.Schedule(cfg, n.fabric, now, order, workerOrder, score);
    FS.ScheduleKeeps(cfg, n.fabric, now, order, workerOrder, score);
    RequestsLeave(cfg, num, strict, seen, n, f', out);
  }

  lemma RequestsLeave(cfg: F.Config, num: E.Numerics, strict: bool, seen: set<Spot>, n: Net, f': F.FabricState,
                      out: seq<ExecutionRequest>)
    requires NetFine(cfg, num, strict, seen, n) && FS.DispatchStep(cfg, n.fabric, f', out)
    ensures NetFine(cfg, num, strict, seen,
      n.(fabric := f', mail := n.mail.(requests := n.mail.requests + set r | r in out)))
  {
    QuietFine(cfg, num, strict, seen, n.fabric, f', n.log);
  }

  lemma PreparedArrives(cfg: F.Config, num: E.Numerics, strict: bool, seen: set<Spot>, n: Net, pd: PreparedDecode)
    requires NetFine(cfg, num, strict, seen, n) && pd in n.mail.prepared
    ensures NetFine(cfg, num, strict, seen, Apply(cfg, num, n, DeliverPrepared(pd)))
  {
    var (f', out) := F.Authorise(cfg, n.fabric, pd, |pd.members|);
    AuthoriseFine(cfg, num, strict, seen, n.fabric, pd, |pd.members|);
    QuietFine(cfg, num, strict, seen, n.fabric, f', n.log);
  }

  lemma ReceiptsArrive(cfg: F.Config, num: E.Numerics, strict: bool, seen: set<Spot>, n: Net, recs: seq<MemberReceipt>)
    requires NetFine(cfg, num, strict, seen, n) && forall r | r in recs :: r.(committedAt := 0) in n.mail.receipts
    ensures NetFine(cfg, num, strict, seen, Apply(cfg, num, n, DeliverReceipts(recs)))
  {
    forall r | r in recs ensures ReceiptFine(num, strict, seen, r) {
      assert ReceiptFine(num, strict, seen, r.(committedAt := 0));
    }
    ReceiveFine(cfg, num, strict, seen, n.fabric, n.log, recs);
  }

  lemma RequestArrives(cfg: F.Config, num: E.Numerics, strict: bool, seen: set<Spot>, n: Net, to: nat,
                       req: ExecutionRequest,
                       ns: MemberSpec -> int)
    requires NetFine(cfg, num, strict, seen, n) && to in n.executors && req in n.mail.requests
    requires Staged(num, n.executors[to], req, |req.members|, ns) <= seen
    ensures NetFine(cfg, num, strict, seen, Apply(cfg, num, n, DeliverRequest(to, req, ns)))
  {
    PrepareFine(num, strict, seen, n.executors[to], req, |req.members|, ns);
    var (e, r) := E.Prepare(num, n.executors[to], req, ns);
    PreparedLeaves(cfg, num, strict, seen, n, to, e, Answer(req, r));
  }

  lemma PreparedLeaves(cfg: F.Config, num: E.Numerics, strict: bool, seen: set<Spot>, n: Net, to: nat,
                       e: E.ExecutorState,
                       pd: PreparedDecode)
    requires NetFine(cfg, num, strict, seen, n) && ExecutorFine(num, strict, seen, e)
    requires forall pm | pm in pd.members :: PreparedFine(num, strict, seen, pm)
    ensures NetFine(cfg, num, strict, seen,
      n.(executors := n.executors[to := e], mail := n.mail.(prepared := n.mail.prepared + {pd})))
  {
  }

  lemma ReceiptLeaves(cfg: F.Config, num: E.Numerics, strict: bool, seen: set<Spot>, n: Net, to: nat,
                      e: E.ExecutorState,
                      r: Result<MemberReceipt>)
    requires NetFine(cfg, num, strict, seen, n) && ExecutorFine(num, strict, seen, e)
      && (r.Ok? ==> ReceiptFine(num, strict, seen, r.value))
    ensures NetFine(cfg, num, strict, seen, n.(executors := n.executors[to := e],
                                         mail := n.mail.(receipts := n.mail.receipts + if r.Ok? then {r.value}
                                           else {})))
  {
  }

  lemma GrantArrives(cfg: F.Config, num: E.Numerics, strict: bool, seen: set<Spot>, n: Net, to: nat, g: CommitGrant)
    requires (strict ==> Distinct(num, seen)) && NetFine(cfg, num, strict, seen, n) && to in n.executors
      && g in n.mail.grants
    ensures NetFine(cfg, num, strict, seen, Apply(cfg, num, n, DeliverGrant(to, g)))
  {
    CommitFine(num, strict, seen, n.executors[to], g);
    var (e, r) := E.Commit(n.executors[to], g);
    ReceiptLeaves(cfg, num, strict, seen, n, to, e, r);
  }

  lemma ActionFine(cfg: F.Config, num: E.Numerics, strict: bool, seen: set<Spot>, n: Net, a: Action)
    requires (strict ==> Distinct(num, seen)) && NetFine(cfg, num, strict, seen, n) && Sighted(num, n, a) <= seen
    ensures NetFine(cfg, num, strict, seen, Apply(cfg, num, n, a))
  {
    match a
    case Local(op) =>
      O.OperateKeeps(cfg, n.fabric, op);
      QuietFine(cfg, num, strict, seen, n.fabric, O.Operate(cfg, n.fabric, op), n.log);
    case Schedule(now, order, workerOrder, score) => DispatchFine(cfg, num, strict, seen, n, now, order, workerOrder,
      score);
    case DeliverPrepared(pd) => if pd in n.mail.prepared { PreparedArrives(cfg, num, strict, seen, n, pd); }
    case DeliverReceipts(recs) =>
      if forall r | r in recs ::
        r.(committedAt := 0) in n.mail.receipts { ReceiptsArrive(cfg, num, strict, seen, n, recs); }
    case DeliverRequest(to, req, ns) =>
      if to in n.executors && req in n.mail.requests { RequestArrives(cfg, num, strict, seen, n, to, req, ns); }
    case DeliverGrant(to, g) => if to in n.executors
      && g in n.mail.grants { GrantArrives(cfg, num, strict, seen, n, to, g); }
    case DeliverAbort(to, abort) => if to in n.executors { AbortFine(num, strict, seen, n.executors[to], abort); }
    case Boot(to) =>
  }

  lemma ReceiptGrows(num: E.Numerics, strict: bool, seen: set<Spot>, more: set<Spot>, r: MemberReceipt)
    requires ReceiptFine(num, strict, seen, r) && seen <= more
    ensures ReceiptFine(num, strict, more, r)
  {
    if strict {
      var o: E.Origin :| o.state == r.auth.state
        && StepFrom(num, seen, r.auth.sequence, o, r.before, r.pre, r.post, r.token);
      assert StepFrom(num, more, r.auth.sequence, o, r.before, r.pre, r.post, r.token);
    }
  }

  lemma PreparedGrows(num: E.Numerics, strict: bool, seen: set<Spot>, more: set<Spot>, pm: PreparedMember)
    requires PreparedFine(num, strict, seen, pm) && seen <= more
    ensures PreparedFine(num, strict, more, pm)
  {
    if strict {
      var o: E.Origin :| o.state == pm.auth.state
        && StepFrom(num, seen, pm.auth.sequence, o, pm.before, pm.pre, pm.post, pm.outcome.token % TWO32);
      assert StepFrom(num, more, pm.auth.sequence, o, pm.before, pm.pre, pm.post, pm.outcome.token % TWO32);
    }
  }

  lemma GrantGrows(num: E.Numerics, strict: bool, seen: set<Spot>, more: set<Spot>, g: CommitGrant)
    requires GrantFine(num, strict, seen, g) && seen <= more
    ensures GrantFine(num, strict, more, g)
  {
    if strict {
      var o: E.Origin :| o.state == g.auth.state
        && StepFrom(num, seen, g.auth.sequence, o, g.position, g.pre, g.post, g.token);
      assert StepFrom(num, more, g.auth.sequence, o, g.position, g.pre, g.post, g.token);
    }
  }

  lemma StateGrows(num: E.Numerics, seen: set<Spot>, more: set<Spot>, sid: nat, st: E.SeqState)
    requires StateFine(num, seen, sid, st) && seen <= more
    ensures StateFine(num, more, sid, st)
  {
    if st.tentative.Some? {
      var q: nat :| StagedFrom(num, seen, st, st.tentative.value, q);
      assert StagedFrom(num, more, st, st.tentative.value, q);
    }
  }

  lemma MailGrows(num: E.Numerics, strict: bool, seen: set<Spot>, more: set<Spot>, mail: Mail)
    requires MailFine(num, strict, seen, mail) && seen <= more
    ensures MailFine(num, strict, more, mail)
  {
    forall pd, pm | pd in mail.prepared && pm in pd.members ensures PreparedFine(num, strict, more, pm) {
      PreparedGrows(num, strict, seen, more, pm);
    }
    forall g | g in mail.grants ensures GrantFine(num, strict, more, g) {
      GrantGrows(num, strict, seen, more, g);
    }
    forall r | r in mail.receipts ensures ReceiptFine(num, strict, more, r) {
      ReceiptGrows(num, strict, seen, more, r);
    }
  }

  lemma ExecutorGrows(num: E.Numerics, strict: bool, seen: set<Spot>, more: set<Spot>, e: E.ExecutorState)
    requires ExecutorFine(num, strict, seen, e) && seen <= more
    ensures ExecutorFine(num, strict, more, e)
  {
    if strict {
      forall sid | sid in e.states ensures StateFine(num, more, sid, e.states[sid]) {
        StateGrows(num, seen, more, sid, e.states[sid]);
      }
    }
    forall k | k in e.receipts ensures ReceiptFine(num, strict, more, e.receipts[k]) {
      ReceiptGrows(num, strict, seen, more, e.receipts[k]);
    }
  }

  lemma PointGrows(cfg: F.Config, num: E.Numerics, strict: bool, seen: set<Spot>, more: set<Spot>, p: Point)
    requires PointFine(cfg, num, strict, seen, p) && seen <= more
    ensures PointFine(cfg, num, strict, more, p)
  {
    forall id | id in p.fabric.seqs ensures Chain(num, strict, more, id, p.fabric.seqs[id].tally, Entries(p.log, id)) {
      var es := Entries(p.log, id);
      assert Chain(num, strict, seen, id, p.fabric.seqs[id].tally, es);
      forall i | 0 <= i < |es| ensures ReceiptFine(num, strict, more, es[i]) {
        ReceiptGrows(num, strict, seen, more, es[i]);
      }
    }
  }

  lemma WorldGrows(cfg: F.Config, num: E.Numerics, strict: bool, w: World, more: set<Spot>)
    requires Fine(cfg, num, strict, w) && w.seen <= more
    ensures Fine(cfg, num, strict, w.(seen := more))
  {
    PointGrows(cfg, num, strict, w.seen, more, Point(w.net.fabric, w.net.log));
    MailGrows(num, strict, w.seen, more, w.net.mail);
    forall e | e in w.net.executors ensures ExecutorFine(num, strict, more, w.net.executors[e]) {
      ExecutorGrows(num, strict, w.seen, more, w.net.executors[e]);
    }
    forall i | 0 <= i < |w.points| ensures PointFine(cfg, num, strict, more, w.points[i]) {
      PointGrows(cfg, num, strict, w.seen, more, w.points[i]);
    }
  }

  lemma StepFine(cfg: F.Config, num: E.Numerics, strict: bool, w: World, m: Move)
    requires Fine(cfg, num, strict, w) && (strict ==> Distinct(num, Step(cfg, num, w, m).seen))
    ensures Fine(cfg, num, strict, Step(cfg, num, w, m)) && w.seen <= Step(cfg, num, w, m).seen
  {
    match m
    case Act(a) =>
      var more := w.seen + Sighted(num, w.net, a);
      WorldGrows(cfg, num, strict, w, more);
      ActionFine(cfg, num, strict, more, w.net, a);
    case Keep =>
    case Rewind(i, inPlace) =>
      if i < |w.points| {
        RewoundFine(cfg, num, strict, w.seen, if inPlace then w.net.fabric else F.Start, w.points[i]);
      }
  }

  /** The invariant of every run; the strict half as long as no two spots of the run collide. */
  lemma {:induction false} TravelFine(cfg: F.Config, num: E.Numerics, strict: bool, moves: seq<Move>)
    requires strict ==> Distinct(num, Travel(cfg, num, moves).seen)
    ensures Fine(cfg, num, strict, Travel(cfg, num, moves))
  {
    if moves != [] {
      var w, m := Travel(cfg, num, moves[..|moves| - 1]), moves[|moves| - 1];
      SeenGrows(cfg, num, w, m);
      TravelFine(cfg, num, strict, moves[..|moves| - 1]);
      StepFine(cfg, num, strict, w, m);
    }
  }

  lemma SeenGrows(cfg: F.Config, num: E.Numerics, w: World, m: Move)
    ensures w.seen <= Step(cfg, num, w, m).seen
  {
  }

  // ---------------------------------------------------------------------------
  // What it comes to

  /** Whatever snapshots the coordinator goes back to, what it holds is finalised exactly once. */
  lemma ExactlyOnce(cfg: F.Config, num: E.Numerics, moves: seq<Move>, id: nat)
    ensures var n := Travel(cfg, num, moves).net;
      id in n.fabric.seqs ==> G.Consecutive(id, n.fabric.seqs[id].tally, Entries(n.log, id))
  {
    var w := Travel(cfg, num, moves);
    TravelFine(cfg, num, false, moves);
    if id in w.net.fabric.seqs {
      ChainOf(cfg, num, false, w, id);
      assert FI.SeqOk(cfg, w.net.fabric, id, w.net.fabric.seqs[id]);
    }
  }

  lemma ChainOf(cfg: F.Config, num: E.Numerics, strict: bool, w: World, id: nat)
    requires Fine(cfg, num, strict, w) && id in w.net.fabric.seqs
    ensures Chain(num, strict, w.seen, id, w.net.fabric.seqs[id].tally, Entries(w.net.log, id))
  {
  }

  // ---------------------------------------------------------------------------
  // One recurrence

  /** The recurrences from `o` and `p` are at the same point. */
  predicate Meet(num: E.Numerics, o: E.Origin, p: E.Origin, k: nat) {
    E.OrbitVec(num, o, k) == E.OrbitVec(num, p, k) && E.OrbitKv(o, k) == E.OrbitKv(p, k)
  }

  lemma MeetOn(num: E.Numerics, o: E.Origin, p: E.Origin, k: nat)
    requires Meet(num, o, p, k)
    ensures Meet(num, o, p, k + 1) && E.OrbitDigest(num, o, k) == E.OrbitDigest(num, p, k)
  {
  }

  lemma MeetTrans(num: E.Numerics, o: E.Origin, p: E.Origin, q: E.Origin, j: nat, k: nat)
    requires Meet(num, o, p, j) && k == j + 1 && Meet(num, p, q, k)
    ensures Meet(num, o, q, k)
  {
    MeetOn(num, o, p, j);
  }

  lemma MeetSteps(num: E.Numerics, o: E.Origin, p: E.Origin, r: MemberReceipt)
    requires Meet(num, o, p, r.before) && LawfulFrom(num, p, r.before, r.pre, r.post, r.token)
    ensures LawfulFrom(num, o, r.before, r.pre, r.post, r.token)
  {
    MeetOn(num, o, p, r.before);
    MeetOn(num, o, p, r.before + 1);
  }

  /** Spots at one position with one digest are one point. */
  lemma SpotsMeet(num: E.Numerics, seen: set<Spot>, a: Spot, b: Spot)
    requires Distinct(num, seen) && a in seen && b in seen && a.position == b.position
    requires E.OrbitDigest(num, a.origin, a.position) == E.OrbitDigest(num, b.origin, b.position)
    ensures Meet(num, a.origin, b.origin, a.position)
  {
    assert !Clash(num, a, b);
  }

  /** Where receipt `k` comes from. */
  predicate From(num: E.Numerics, seen: set<Spot>, id: nat, o: E.Origin, es: seq<MemberReceipt>, k: nat)
    requires k < |es|
  {
    o.state == es[k].auth.state && StepFrom(num, seen, id, o, es[k].before, es[k].pre, es[k].post, es[k].token)
  }

  /** Receipt `k` comes from somewhere, and continues the one before it. */
  ghost predicate Sourced(num: E.Numerics, seen: set<Spot>, id: nat, es: seq<MemberReceipt>, k: nat)
    requires k < |es|
  {
    && (exists o: E.Origin :: From(num, seen, id, o, es, k)) && es[k].before == es[0].before + k
    && (k > 0 ==> es[k].pre == es[k - 1].post)
  }

  ghost predicate AllSourced(num: E.Numerics, seen: set<Spot>, id: nat, es: seq<MemberReceipt>) {
    forall k | 0 <= k < |es| :: Sourced(num, seen, id, es, k)
  }

  lemma ChainSourced(num: E.Numerics, seen: set<Spot>, id: nat, t: F.Tally, es: seq<MemberReceipt>)
    requires Chain(num, true, seen, id, t, es)
    ensures AllSourced(num, seen, id, es)
  {
    forall k | 0 <= k < |es| ensures Sourced(num, seen, id, es, k) {
      assert EntryOk(id, t, es, k) && EntryOk(id, t, es, 0) && ReceiptFine(num, true, seen, es[k]);
      var o: E.Origin :| o.state == es[k].auth.state
        && StepFrom(num, seen, id, o, es[k].before, es[k].pre, es[k].post, es[k].token);
      assert From(num, seen, id, o, es, k);
    }
  }

  lemma SourceOf(num: E.Numerics, seen: set<Spot>, id: nat, es: seq<MemberReceipt>, k: nat) returns (o: E.Origin)
    requires k < |es| && Sourced(num, seen, id, es, k)
    ensures From(num, seen, id, o, es, k)
  {
    o :| From(num, seen, id, o, es, k);
  }

  /** Receipts that follow each other come from points that meet. */
  lemma NextMeets(num: E.Numerics, seen: set<Spot>, id: nat, es: seq<MemberReceipt>, k: nat, p: E.Origin, q: E.Origin)
    requires Distinct(num, seen) && 0 < k < |es| && From(num, seen, id, p, es, k - 1) && From(num, seen, id, q, es, k)
    requires es[k].before == es[k - 1].before + 1 && es[k].pre == es[k - 1].post
    ensures Meet(num, p, q, es[k].before)
  {
    SpotsMeet(num, seen, Spot(id, p, es[k].before), Spot(id, q, es[k].before));
  }

  /** A chain follows any recurrence that meets it where it starts. */
  lemma {:induction false} ChainFollows(num: E.Numerics, seen: set<Spot>, id: nat, es: seq<MemberReceipt>,
                                        o: E.Origin, p0: E.Origin, k: nat)
    returns (p: E.Origin)
    requires Distinct(num, seen) && AllSourced(num, seen, id, es) && k < |es|
    requires From(num, seen, id, p0, es, 0) && Meet(num, o, p0, es[0].before)
    ensures From(num, seen, id, p, es, k) && Meet(num, o, p, es[k].before)
  {
    p := p0;
    if k > 0 {
      var q := ChainFollows(num, seen, id, es, o, p0, k - 1);
      assert Sourced(num, seen, id, es, k) && Sourced(num, seen, id, es, k - 1);
      p := SourceOf(num, seen, id, es, k);
      NextMeets(num, seen, id, es, k, q, p);
      MeetTrans(num, o, q, p, es[k - 1].before, es[k].before);
    }
  }

  lemma ChainSteps(num: E.Numerics, seen: set<Spot>, id: nat, es: seq<MemberReceipt>, o: E.Origin, p0: E.Origin, k: nat)
    requires Distinct(num, seen) && AllSourced(num, seen, id, es) && k < |es|
    requires From(num, seen, id, p0, es, 0) && Meet(num, o, p0, es[0].before)
    ensures G.StepOf(num, o, es, k)
  {
    var p := ChainFollows(num, seen, id, es, o, p0, k);
    MeetSteps(num, o, p, es[k]);
  }

  lemma ChainOne(num: E.Numerics, seen: set<Spot>, id: nat, t: F.Tally, es: seq<MemberReceipt>) returns (o: E.Origin)
    requires Distinct(num, seen) && Chain(num, true, seen, id, t, es) && es != []
    ensures From(num, seen, id, o, es, 0) && forall i | 0 <= i < |es| :: G.StepOf(num, o, es, i)
  {
    ChainSourced(num, seen, id, t, es);
    assert Sourced(num, seen, id, es, 0);
    o := SourceOf(num, seen, id, es, 0);
    forall i | 0 <= i < |es| ensures G.StepOf(num, o, es, i) {
      ChainSteps(num, seen, id, es, o, o, i);
    }
  }

  /**
   As long as no two spots of the run collide, what the coordinator holds is one recurrence. It
   starts at a state that a request of the run asked for; some request named that state for
   this sequence, and it is the sequence's own state if every request did.
   */
  lemma Refinement(cfg: F.Config, num: E.Numerics, moves: seq<Move>, id: nat) returns (o: E.Origin)
    requires Distinct(num, Travel(cfg, num, moves).seen)
    ensures var n := Travel(cfg, num, moves).net;
      id in n.fabric.seqs && Entries(n.log, id) != [] ==>
        && (forall i | 0 <= i < |Entries(n.log, id)| :: G.StepOf(num, o, Entries(n.log, id), i))
        && o.state == Entries(n.log, id)[0].auth.state
        && Requested(n.mail.requests, o) && AskedFor(n.mail.requests, id, o.state)
        && (OneState(n.mail.requests, id, n.fabric.seqs[id].kv.id) ==> o.state == n.fabric.seqs[id].kv.id)
  {
    var w := Travel(cfg, num, moves);
    TravelFine(cfg, num, true, moves);
    o := E.Origin(0, 0, 0);
    if id in w.net.fabric.seqs && Entries(w.net.log, id) != [] {
      var es := Entries(w.net.log, id);
      ChainOf(cfg, num, true, w, id);
      o := ChainOne(num, w.seen, id, w.net.fabric.seqs[id].tally, es);
      SpotsAsked(cfg, num, moves, Spot(id, o, es[0].before));
    }
  }

  // ---------------------------------------------------------------------------
  // Where spots come from

  /** Some request of the run has this sequence with this state. */
  predicate AskedFor(rs: set<ExecutionRequest>, id: nat, sid: nat) {
    exists req, m | req in rs && m in req.members :: m.sequence == id && m.state.id == sid
  }

  /** Every request of the run that has this sequence has it with this state. */
  ghost predicate OneState(rs: set<ExecutionRequest>, id: nat, sid: nat) {
    forall req, m | req in rs && m in req.members && m.sequence == id :: m.state.id == sid
  }

  predicate Explained(rs: set<ExecutionRequest>, s: Spot) {
    Requested(rs, s.origin) && AskedFor(rs, s.sequence, s.origin.state)
  }

  /** States are filed under their own id and start where a request asked for it. */
  ghost predicate WellFiled(rs: set<ExecutionRequest>, e: E.ExecutorState) {
    forall sid | sid in e.states :: e.states[sid].origin.state == sid && Requested(rs, e.states[sid].origin)
  }

  lemma ExplainedStays(rs: set<ExecutionRequest>, more: set<ExecutionRequest>, s: Spot)
    requires Explained(rs, s) && rs <= more
    ensures Explained(more, s)
  {
    RequestedStays(rs, more, s.origin);
    var req, m :| req in rs && m in req.members && m.sequence == s.sequence && m.state.id == s.origin.state;
    assert req in more;
  }

  lemma AdoptFiled(num: E.Numerics, rs: set<ExecutionRequest>, e: E.ExecutorState, req: ExecutionRequest, m: MemberSpec)
    requires WellFiled(rs, e) && req in rs && m in req.members
    ensures var st := E.Adopt(num, e, m);
      && st.origin.state == m.state.id && Requested(rs, st.origin)
      && (forall s | s in SpotsOf(m.sequence, st) :: Explained(rs, s))
  {
    var st := if m.state.id in e.states then e.states[m.state.id] else E.Initial(num, m);
    assert m.state.id !in e.states ==> st.origin == E.OriginOf(m);
    E.CatchUpKeepsOrigin(num, st, m.generatedTokens);
  }

  lemma PrepareMemberFiled(num: E.Numerics, rs: set<ExecutionRequest>, e: E.ExecutorState, req: ExecutionRequest,
                           m: MemberSpec, ns: int)
    requires WellFiled(rs, e) && req in rs && m in req.members
    ensures WellFiled(rs, E.PrepareMember(num, e, req, m, ns).0)
    ensures forall s | s in SpotsOf(m.sequence, E.Adopt(num, e, m)) :: Explained(rs, s)
  {
    AdoptFiled(num, rs, e, req, m);
  }

  lemma {:induction false} PrepareFiled(num: E.Numerics, rs: set<ExecutionRequest>, e: E.ExecutorState,
                                        req: ExecutionRequest, k: nat, ns: MemberSpec -> int)
    requires WellFiled(rs, e) && req in rs && k <= |req.members|
    ensures WellFiled(rs, E.PrepareUpTo(num, e, req, k, ns).0)
    ensures forall s | s in Staged(num, e, req, k, ns) :: Explained(rs, s)
  {
    if k > 0 {
      PrepareFiled(num, rs, e, req, k - 1, ns);
      var (e1, done) := E.PrepareUpTo(num, e, req, k - 1, ns);
      if done.Ok? {
        PrepareMemberFiled(num, rs, e1, req, req.members[k - 1], ns(req.members[k - 1]));
      }
    }
  }

  ghost predicate AllExplained(w: World) {
    && (forall s | s in w.seen :: Explained(w.net.mail.requests, s))
    && (forall e | e in w.net.executors :: WellFiled(w.net.mail.requests, w.net.executors[e]))
  }

  lemma FiledStays(rs: set<ExecutionRequest>, more: set<ExecutionRequest>, e: E.ExecutorState)
    requires WellFiled(rs, e) && rs <= more
    ensures WellFiled(more, e)
  {
    forall sid | sid in e.states ensures Requested(more, e.states[sid].origin) {
      RequestedStays(rs, more, e.states[sid].origin);
    }
  }

  lemma RequestsGrow(w: World, n': Net)
    requires AllExplained(w) && w.net.mail.requests <= n'.mail.requests && n'.executors == w.net.executors
    ensures AllExplained(w.(net := n'))
  {
    forall s | s in w.seen ensures Explained(n'.mail.requests, s) {
      ExplainedStays(w.net.mail.requests, n'.mail.requests, s);
    }
    forall e | e in n'.executors ensures WellFiled(n'.mail.requests, n'.executors[e]) {
      FiledStays(w.net.mail.requests, n'.mail.requests, w.net.executors[e]);
    }
  }

  lemma ActionExplained(cfg: F.Config, num: E.Numerics, w: World, a: Action)
    requires AllExplained(w)
    ensures AllExplained(w.(net := Apply(cfg, num, w.net, a), seen := w.seen + Sighted(num, w.net, a)))
  {
    match a
    case Schedule(now, order, workerOrder, score) => RequestsGrow(w, Apply(cfg, num, w.net, a));
    case DeliverRequest(to, req, ns) =>
      if to in w.net.executors && req in w.net.mail.requests {
        PrepareFiled(num, w.net.mail.requests, w.net.executors[to], req, |req.members|, ns);
      }
    case _ =>
  }

  lemma {:induction false} TravelExplained(cfg: F.Config, num: E.Numerics, moves: seq<Move>)
    ensures AllExplained(Travel(cfg, num, moves))
  {
    if moves != [] {
      var w, m := Travel(cfg, num, moves[..|moves| - 1]), moves[|moves| - 1];
      TravelExplained(cfg, num, moves[..|moves| - 1]);
      match m
      case Act(a) => ActionExplained(cfg, num, w, a);
      case Keep =>
      case Rewind(i, inPlace) =>
    }
  }

  /** What executors stage for a sequence starts where a request asked, with a state some request of it named. */
  lemma SpotsAsked(cfg: F.Config, num: E.Numerics, moves: seq<Move>, s: Spot)
    requires s in Travel(cfg, num, moves).seen
    ensures Explained(Travel(cfg, num, moves).net.mail.requests, s)
  {
    TravelExplained(cfg, num, moves);
  }

  // ---------------------------------------------------------------------------
  // Two runs

  /** Two receipts for the same position with the same digests and the same token. */
  predicate SameStep(a: MemberReceipt, b: MemberReceipt) {
    a.before == b.before && a.pre == b.pre && a.post == b.post && a.token == b.token
  }

  /** Receipts that start at the same position and digest are the same as far as both go. */
  ghost predicate Agree(es: seq<MemberReceipt>, ds: seq<MemberReceipt>) {
    es != [] && ds != [] && es[0].before == ds[0].before && es[0].pre == ds[0].pre ==>
      forall i | 0 <= i < |es| && i < |ds| :: SameStep(es[i], ds[i])
  }

  lemma ChainsAgree(num: E.Numerics, seen: set<Spot>, id: nat, es: seq<MemberReceipt>, ds: seq<MemberReceipt>)
    requires Distinct(num, seen) && AllSourced(num, seen, id, es) && AllSourced(num, seen, id, ds)
    ensures Agree(es, ds)
  {
    if es != [] && ds != [] && es[0].before == ds[0].before && es[0].pre == ds[0].pre {
      assert Sourced(num, seen, id, es, 0) && Sourced(num, seen, id, ds, 0);
      var o := SourceOf(num, seen, id, es, 0);
      var p := SourceOf(num, seen, id, ds, 0);
      SpotsMeet(num, seen, Spot(id, o, es[0].before), Spot(id, p, ds[0].before));
      forall i | 0 <= i < |es| && i < |ds| ensures SameStep(es[i], ds[i]) {
        assert Sourced(num, seen, id, es, i) && Sourced(num, seen, id, ds, i);
        ChainSteps(num, seen, id, es, o, o, i);
        ChainSteps(num, seen, id, ds, o, p, i);
      }
    }
  }

  lemma ChainIn(cfg: F.Config, num: E.Numerics, w: World, more: set<Spot>, id: nat)
    requires Fine(cfg, num, true, w) && w.seen <= more && id in w.net.fabric.seqs
    ensures Chain(num, true, more, id, w.net.fabric.seqs[id].tally, Entries(w.net.log, id))
  {
    PointGrows(cfg, num, true, w.seen, more, Point(w.net.fabric, w.net.log));
  }

  /**
   What was lost by going back is produced again as it was: any two runs whose receipts for a
   sequence start at the same position and digest agree on every receipt they both have, as
   long as no two spots of the two runs collide.
   */
  lemma TimelinesAgree(cfg: F.Config, num: E.Numerics, these: seq<Move>, those: seq<Move>, id: nat)
    requires Distinct(num, Travel(cfg, num, these).seen + Travel(cfg, num, those).seen)
    ensures var a, b := Travel(cfg, num, these).net, Travel(cfg, num, those).net;
      id in a.fabric.seqs && id in b.fabric.seqs ==> Agree(Entries(a.log, id), Entries(b.log, id))
  {
    TravelFine(cfg, num, true, these);
    TravelFine(cfg, num, true, those);
    var a, b := Travel(cfg, num, these), Travel(cfg, num, those);
    if id in a.net.fabric.seqs && id in b.net.fabric.seqs {
      var seen := a.seen + b.seen;
      ChainIn(cfg, num, a, seen, id);
      ChainIn(cfg, num, b, seen, id);
      ChainSourced(num, seen, id, a.net.fabric.seqs[id].tally, Entries(a.net.log, id));
      ChainSourced(num, seen, id, b.net.fabric.seqs[id].tally, Entries(b.net.log, id));
      ChainsAgree(num, seen, id, Entries(a.net.log, id), Entries(b.net.log, id));
    }
  }
}
