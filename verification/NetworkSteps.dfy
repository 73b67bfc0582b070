/**
 Every action of the network keeps the network invariant. The coordinator's own steps are
 those of `FabricSteps`; what is added here is that every message it sends, and every message
 an executor answers with, carries a lawful step of a recurrence that a request of the run
 asked for, and that the history of finalised receipts grows by such steps only.
 */
module NetworkSteps {
  import opened Types
  import opened Network
  import opened NetworkInvariants
  import F = Fabric
  import FI = FabricInvariants
  import FS = FabricSteps
  import E = Executor

  // ---------------------------------------------------------------------------
  // Schedule

  lemma NewRequestsOk(num: E.Numerics, f: F.FabricState, mail: Mail, out: seq<ExecutionRequest>, floor: nat)
    requires MailOk(num, f, mail)
    requires forall req | req in out :: FS.RequestOk(f, req) && req.dispatch >= floor
    requires forall g | g in mail.grants :: g.auth.dispatch < floor
    ensures MailOk(num, f, mail.(requests := mail.requests + set r | r in out))
  {
    var mail' := mail.(requests := mail.requests + set r | r in out);
    forall g | g in mail'.grants ensures GrantOk(num, f, mail'.requests, g) {
      assert GrantOk(num, f, mail.requests, g);
      LawfulStays(num, mail.requests, mail'.requests, g.auth.state, g.position, g.pre, g.post, g.token);
    }
    forall pd, pm | pd in mail'.prepared && pm in pd.members ensures PreparedOk(num, f, mail'.requests, pm) {
      assert PreparedOk(num, f, mail.requests, pm);
      LawfulStays(num, mail.requests, mail'.requests, pm.auth.state, pm.before, pm.pre, pm.post,
                  pm.outcome.token % TWO32);
    }
    forall r | r in mail'.receipts ensures ReceiptOk(num, f, mail'.requests, r) {
      assert ReceiptOk(num, f, mail.requests, r);
      LawfulStays(num, mail.requests, mail'.requests, r.auth.state, r.before, r.pre, r.post, r.token);
    }
  }

  lemma DispatchedKeeps(cfg: F.Config, num: E.Numerics, n: Net, f': F.FabricState, out: seq<ExecutionRequest>)
    requires NetInv(cfg, num, n) && FS.DispatchStep(cfg, n.fabric, f', out)
    ensures NetInv(cfg, num, n.(fabric := f', mail := n.mail.(requests := n.mail.requests + set r | r in out)))
  {
    QuietKeeps(cfg, num, n, f');
    assert forall g | g in n.mail.grants :: GrantOk(num, n.fabric, n.mail.requests, g);
    NewRequestsOk(num, f', n.mail, out, n.fabric.next.dispatch);
    var mail' := n.mail.(requests := n.mail.requests + set r | r in out);
    LogsGrow(num, n.mail.requests, mail'.requests, f', n.log);
    forall e | e in n.executors ensures ExecutorOk(num, f', mail', n.executors[e]) {
      SelfEvolves(f');
      ExecutorStays(num, f', f', n.mail, mail', n.executors[e]);
    }
  }

  lemma ScheduleKeeps(cfg: F.Config, num: E.Numerics, n: Net, now: int, order: seq<nat>, workerOrder: seq<nat>,
                      score: map<nat, real>)
    requires NetInv(cfg, num, n)
    ensures NetInv(cfg, num, Apply(cfg, num, n, Schedule(now, order, workerOrder, score)))
  {
    var (f', out) := F.Schedule(cfg, n.fabric, now, order, workerOrder, score);
    FS.ScheduleKeeps(cfg, n.fabric, now, order, workerOrder, score);
    DispatchedKeeps(cfg, num, n, f', out);
  }

  lemma SelfEvolves(f: F.FabricState)
    ensures FI.Steady(f, f)
  {
  }

  // ---------------------------------------------------------------------------
  // Authorise

  lemma IssuedOk(cfg: F.Config, num: E.Numerics, f: F.FabricState, mail: Mail, pd: PreparedDecode, pm: PreparedMember)
    requires FI.Inv(cfg, f) && MailOk(num, f, mail) && PreparedOk(num, f, mail.requests, pm) && F.Authorised(cfg, f, pm)
    ensures GrantOk(num, f, mail.requests, F.GrantFor(f.next.grant, pd, pm))
  {
    var g, s := F.GrantFor(f.next.grant, pd, pm), f.seqs[pm.auth.sequence];
    assert FI.SeqOk(cfg, f, pm.auth.sequence, s);
    forall req, m | req in mail.requests && req.dispatch == g.auth.dispatch && m in req.members
      && m.sequence == g.auth.sequence
      ensures m.generatedTokens == g.position
    {
      assert FS.RequestOk(f, req) && FS.SpecOk(f, req.dispatch, m);
    }
  }

  lemma GrantStays(num: E.Numerics, f: F.FabricState, f': F.FabricState, requests: set<ExecutionRequest>,
                   g: CommitGrant)
    requires GrantOk(num, f, requests, g) && FI.Evolves(f, f')
    ensures GrantOk(num, f', requests, g)
  {
    assert FI.SeqStep(f.next.dispatch, f.seqs[g.auth.sequence], f'.seqs[g.auth.sequence]);
  }

  ghost predicate RepliesOk(num: E.Numerics, f: F.FabricState, requests: set<ExecutionRequest>, out: seq<F.Reply>) {
    forall r | r in out && r.SendGrant? :: GrantOk(num, f, requests, r.grant)
  }

  lemma AuthoriseOne(cfg: F.Config, num: E.Numerics, f: F.FabricState, mail: Mail, pd: PreparedDecode,
                     pm: PreparedMember)
    returns (f': F.FabricState, reply: F.Reply)
    requires FI.Inv(cfg, f) && MailOk(num, f, mail) && PreparedOk(num, f, mail.requests, pm)
    ensures (f', reply) == F.AuthoriseMember(cfg, f, pd, pm)
    ensures FI.Inv(cfg, f') && FI.Steady(f, f') && FS.Unmoved(f, f') && FI.MemoryKept(f, f')
      && RepliesOk(num, f', mail.requests, [reply])
  {
    f', reply := F.AuthoriseMember(cfg, f, pd, pm).0, F.AuthoriseMember(cfg, f, pd, pm).1;
    FS.AuthoriseMemberKeeps(cfg, f, pd, pm);
    if F.Authorised(cfg, f, pm) {
      IssuedOk(cfg, num, f, mail, pd, pm);
      GrantStays(num, f, f', mail.requests, reply.grant);
    }
  }

  lemma RepliesStay(num: E.Numerics, f: F.FabricState, f': F.FabricState, requests: set<ExecutionRequest>,
                    out: seq<F.Reply>, reply: F.Reply)
    requires RepliesOk(num, f, requests, out) && FI.Evolves(f, f') && RepliesOk(num, f', requests, [reply])
    ensures RepliesOk(num, f', requests, out + [reply])
  {
    forall r | r in out + [reply] && r.SendGrant? ensures GrantOk(num, f', requests, r.grant) {
      if r in out {
        GrantStays(num, f, f', requests, r.grant);
      } else {
        assert r in [reply];
      }
    }
  }

  lemma {:induction false} AuthoriseUpTo(cfg: F.Config, num: E.Numerics, f: F.FabricState, mail: Mail,
                                         pd: PreparedDecode, k: nat)
    requires FI.Inv(cfg, f) && MailOk(num, f, mail) && pd in mail.prepared && k <= |pd.members|
    ensures var (f', out) := F.Authorise(cfg, f, pd, k);
      && FI.Inv(cfg, f') && FI.Steady(f, f') && FS.Unmoved(f, f') && FI.MemoryKept(f, f')
        && RepliesOk(num, f', mail.requests, out)
  {
    if k > 0 {
      AuthoriseUpTo(cfg, num, f, mail, pd, k - 1);
      var (f1, out) := F.Authorise(cfg, f, pd, k - 1);
      var pm := pd.members[k - 1];
      MailStays(num, f, f1, mail);
      assert PreparedOk(num, f1, mail.requests, pm);
      var f2, reply := AuthoriseOne(cfg, num, f1, mail, pd, pm);
      FI.SteadyTrans(cfg, f, f1, f2);
      RepliesStay(num, f1, f2, mail.requests, out, reply);
    }
  }

  lemma DeliverPreparedKeeps(cfg: F.Config, num: E.Numerics, n: Net, pd: PreparedDecode)
    requires NetInv(cfg, num, n)
    ensures NetInv(cfg, num, Apply(cfg, num, n, DeliverPrepared(pd)))
  {
    if pd in n.mail.prepared {
      var (f', out) := F.Authorise(cfg, n.fabric, pd, |pd.members|);
      AuthoriseUpTo(cfg, num, n.fabric, n.mail, pd, |pd.members|);
      QuietKeeps(cfg, num, n, f');
      var mail' := n.mail.(grants := n.mail.grants + Grants(out));
      forall p, pm | p in mail'.prepared && pm in p.members ensures PreparedOk(num, f', mail'.requests, pm) {
      }
      forall e | e in n.executors ensures ExecutorOk(num, f', mail', n.executors[e]) {
        SelfEvolves(f');
        ExecutorStays(num, f', f', n.mail, mail', n.executors[e]);
      }
    }
  }

  // ---------------------------------------------------------------------------
  // Receipts

  lemma LogExtends(num: E.Numerics, rs: set<ExecutionRequest>, id: nat, s: F.Sequence, t: F.Sequence,
                   es: seq<MemberReceipt>, rec: MemberReceipt)
    requires LogOk(num, rs, id, s, es) && t.kv.id == s.kv.id && rec.auth.sequence == id
    requires rec.auth.generation == s.tally.generation && rec.before == s.tally.generated
    requires s.tally.digestEstablished ==> rec.pre == s.tally.digest
    requires t.tally.generation == s.tally.generation + 1 && t.tally.generated == s.tally.generated + 1
    requires t.tally.digest == rec.post && t.tally.digestEstablished
    requires Lawful(num, rs, s.kv.id, rec.before, rec.pre, rec.post, rec.token)
    ensures LogOk(num, rs, id, t, es + [rec])
  {
    var es' := es + [rec];
    forall i | 0 <= i < |es'| ensures EntryOk(id, t.tally, es', i) {
      if i < |es| {
        assert EntryOk(id, s.tally, es, i);
      }
    }
  }

  lemma LogsExtended(num: E.Numerics, rs: set<ExecutionRequest>, f: F.FabricState, f': F.FabricState,
                     log: map<nat, seq<MemberReceipt>>, id: nat, es: seq<MemberReceipt>)
    requires LogsOk(num, rs, f, log) && id in f.seqs && f'.seqs.Keys == f.seqs.Keys
    requires forall k | k in f.seqs && k != id :: f'.seqs[k] == f.seqs[k]
    requires LogOk(num, rs, id, f'.seqs[id], es)
    ensures LogsOk(num, rs, f', log[id := es])
  {
    forall k | k in f'.seqs ensures LogOk(num, rs, k, f'.seqs[k], Entries(log[id := es], k)) {
      if k != id {
        assert LogOk(num, rs, k, f.seqs[k], Entries(log, k));
      }
    }
  }

  lemma LogsExtend(cfg: F.Config, num: E.Numerics, rs: set<ExecutionRequest>, f: F.FabricState,
                   log: map<nat, seq<MemberReceipt>>, rec: MemberReceipt)
    requires FI.Inv(cfg, f) && LogsOk(num, rs, f, log) && F.Finalises(f, rec) && ReceiptOk(num, f, rs, rec)
    ensures LogsOk(num, rs, F.Finalise(cfg, f, rec), log[rec.auth.sequence := Entries(log, rec.auth.sequence) + [rec]])
  {
    var id, f' := rec.auth.sequence, F.Finalise(cfg, f, rec);
    FS.FinaliseExtends(cfg, f, rec);
    FS.FinaliseOthers(cfg, f, rec);
    LogExtends(num, rs, id, f.seqs[id], f'.seqs[id], Entries(log, id), rec);
    LogsExtended(num, rs, f, f', log, id, Entries(log, id) + [rec]);
  }

  lemma ReceiptStays(num: E.Numerics, f: F.FabricState, f': F.FabricState, rs: set<ExecutionRequest>, r: MemberReceipt)
    requires ReceiptOk(num, f, rs, r) && FI.Evolves(f, f')
    ensures ReceiptOk(num, f', rs, r)
  {
    assert FI.SeqStep(f.next.dispatch, f.seqs[r.auth.sequence], f'.seqs[r.auth.sequence]);
  }

  lemma {:induction false} ReceiveUpTo(cfg: F.Config, num: E.Numerics, rs: set<ExecutionRequest>, f: F.FabricState,
                                       log: map<nat, seq<MemberReceipt>>, recs: seq<MemberReceipt>)
    requires FI.Inv(cfg, f) && LogsOk(num, rs, f, log)
    requires forall r | r in recs :: ReceiptOk(num, f, rs, r)
    ensures var (f', done) := F.Receive(cfg, f, recs);
      FI.Inv(cfg, f') && FI.Evolves(f, f') && LogsOk(num, rs, f', Logged(log, done))
  {
    if recs == [] {
      SelfEvolves(f);
    } else {
      var front, rec := recs[..|recs| - 1], recs[|recs| - 1];
      assert forall r | r in front :: r in recs;
      ReceiveUpTo(cfg, num, rs, f, log, front);
      var (f1, done) := F.Receive(cfg, f, front);
      if F.Finalises(f1, rec) {
        assert rec in recs;
        ReceiveNext(cfg, num, rs, f, f1, log, done, rec);
      }
    }
  }

  lemma ReceiveNext(cfg: F.Config, num: E.Numerics, rs: set<ExecutionRequest>, f: F.FabricState, f1: F.FabricState,
                    log: map<nat, seq<MemberReceipt>>,
                    done: seq<MemberReceipt>, rec: MemberReceipt)
    requires FI.Inv(cfg, f) && FI.Inv(cfg, f1) && FI.Evolves(f, f1) && LogsOk(num, rs, f1, Logged(log, done))
    requires ReceiptOk(num, f, rs, rec) && F.Finalises(f1, rec)
    ensures var f2 := F.Finalise(cfg, f1, rec);
      FI.Inv(cfg, f2) && FI.Evolves(f, f2) && LogsOk(num, rs, f2, Logged(log, done + [rec]))
  {
    ReceiptStays(num, f, f1, rs, rec);
    FS.FinaliseKeeps(cfg, f1, rec);
    FI.EvolvesTrans(cfg, f, f1, F.Finalise(cfg, f1, rec));
    LogsExtend(cfg, num, rs, f1, Logged(log, done), rec);
    assert (done + [rec])[..|done|] == done;
  }

  lemma ReceiptsDelivered(cfg: F.Config, num: E.Numerics, n: Net, recs: seq<MemberReceipt>)
    returns (f': F.FabricState, done: seq<MemberReceipt>, n': Net)
    requires NetInv(cfg, num, n) && forall r | r in recs :: r.(committedAt := 0) in n.mail.receipts
    ensures F.Receive(cfg, n.fabric, recs) == (f', done)
    ensures n' == n.(fabric := f', log := Logged(n.log, done)) && NetInv(cfg, num, n')
  {
    f', done := F.Receive(cfg, n.fabric, recs).0, F.Receive(cfg, n.fabric, recs).1;
    DeliveredReceiptsOk(num, n, recs);
    ReceiveUpTo(cfg, num, n.mail.requests, n.fabric, n.log, recs);
    n' := CoordinatorChange(cfg, num, n, f', Logged(n.log, done));
  }

  lemma CoordinatorChange(cfg: F.Config, num: E.Numerics, n: Net, f': F.FabricState, log': map<nat, seq<MemberReceipt>>)
    returns (n': Net)
    requires NetInv(cfg, num, n) && FI.Inv(cfg, f') && FI.Evolves(n.fabric, f')
      && LogsOk(num, n.mail.requests, f', log')
    ensures n' == n.(fabric := f', log := log') && NetInv(cfg, num, n')
  {
    MailStays(num, n.fabric, f', n.mail);
    forall e | e in n.executors ensures ExecutorOk(num, f', n.mail, n.executors[e]) {
      ExecutorStays(num, n.fabric, f', n.mail, n.mail, n.executors[e]);
    }
    n' := n.(fabric := f', log := log');
  }

  // ---------------------------------------------------------------------------
  // Executors

  lemma StageOk(num: E.Numerics, f: F.FabricState, requests: set<ExecutionRequest>, st: E.SeqState,
                req: ExecutionRequest, m: MemberSpec, proposal: nat, ns: int)
    requires StateOk(num, f, requests, m.state.id, st) && m.generatedTokens <= st.tokens
    requires req in requests && m in req.members && FS.RequestOk(f, req) && FS.SpecOk(f, req.dispatch, m)
    ensures var t := E.Stage(num, st, req, m, proposal);
      && StateOk(num, f, requests, m.state.id, st.(tentative := Some(t)))
      && PreparedOk(num, f, requests, E.Report(num, st, m, t, ns))
  {
    var t := E.Stage(num, st, req, m, proposal);
    E.StageFollowsOrbit(num, st, req, m, proposal, ns);
    var st' := st.(tentative := Some(t));
    assert StagedBy(num, st', t, req, m, st.tokens);
    var pm := E.Report(num, st, m, t, ns);
    assert LawfulFrom(num, st.origin, pm.before, pm.pre, pm.post, pm.outcome.token % TWO32);
  }

  /** A prepared member leaves its state on the recurrence and reports a lawful step. */
  lemma PrepareMemberOk(num: E.Numerics, f: F.FabricState, mail: Mail, e: E.ExecutorState, req: ExecutionRequest,
                        m: MemberSpec, ns: int)
    requires MailOk(num, f, mail) && ExecutorOk(num, f, mail, e) && req in mail.requests && m in req.members
    ensures var (e', r) := E.PrepareMember(num, e, req, m, ns);
      ExecutorOk(num, f, mail, e') && (r.Ok? ==> PreparedOk(num, f, mail.requests, r.value))
  {
    var st := E.Adopt(num, e, m);
    AdoptOk(num, f, mail, e, req, m);
    assert FS.RequestOk(f, req) && FS.SpecOk(f, req.dispatch, m);
    var e' := E.PrepareMember(num, e, req, m, ns).0;
    forall sid | sid in e'.states && sid != m.state.id ensures StateOk(num, f, mail.requests, sid, e'.states[sid]) {
      assert StateOk(num, f, mail.requests, sid, e.states[sid]);
    }
    StageOk(num, f, mail.requests, st, req, m, e.nextProposal + 1, ns);
  }

  lemma AdoptOk(num: E.Numerics, f: F.FabricState, mail: Mail, e: E.ExecutorState, req: ExecutionRequest, m: MemberSpec)
    requires MailOk(num, f, mail) && ExecutorOk(num, f, mail, e) && req in mail.requests && m in req.members
    ensures StateOk(num, f, mail.requests, m.state.id, E.Adopt(num, e, m))
    ensures m.generatedTokens <= E.Adopt(num, e, m).tokens
  {
    var st := if m.state.id in e.states then e.states[m.state.id] else E.Initial(num, m);
    var st' := E.Adopt(num, e, m);
    assert m.state.id in e.states ==> StateOk(num, f, mail.requests, m.state.id, st);
    assert m.state.id !in e.states ==> st.origin == E.OriginOf(m);
    E.CatchUpFollowsOrbit(num, st, m.generatedTokens);
    assert FS.RequestOk(f, req) && FS.SpecOk(f, req.dispatch, m);
    assert Tracked(f, m.sequence, m.state.id);
    if st.tentative.Some? {
      var req0, m0, q :| req0 in mail.requests && StagedBy(num, st, st.tentative.value, req0, m0, q);
      assert StagedBy(num, st', st'.tentative.value, req0, m0, q);
    }
  }

  lemma {:induction false} PrepareOk(num: E.Numerics, f: F.FabricState, mail: Mail, e: E.ExecutorState,
                                     req: ExecutionRequest, k: nat, ns: MemberSpec -> int)
    requires MailOk(num, f, mail) && ExecutorOk(num, f, mail, e) && req in mail.requests && k <= |req.members|
    ensures var (e', r) := E.PrepareUpTo(num, e, req, k, ns);
      ExecutorOk(num, f, mail, e') && (r.Ok? ==> forall pm | pm in r.value :: PreparedOk(num, f, mail.requests, pm))
  {
    if k > 0 {
      PrepareOk(num, f, mail, e, req, k - 1, ns);
      var (e1, done) := E.PrepareUpTo(num, e, req, k - 1, ns);
      if done.Ok? {
        PrepareMemberOk(num, f, mail, e1, req, req.members[k - 1], ns(req.members[k - 1]));
      }
    }
  }

  lemma DeliverRequestKeeps(cfg: F.Config, num: E.Numerics, n: Net, to: nat, req: ExecutionRequest,
                            ns: MemberSpec -> int)
    requires NetInv(cfg, num, n)
    ensures NetInv(cfg, num, Apply(cfg, num, n, DeliverRequest(to, req, ns)))
  {
    if to in n.executors && req in n.mail.requests {
      PrepareOk(num, n.fabric, n.mail, n.executors[to], req, |req.members|, ns);
      var (e, r) := E.Prepare(num, n.executors[to], req, ns);
      PreparedSent(cfg, num, n, to, e, Answer(req, r));
    }
  }

  lemma PreparedSent(cfg: F.Config, num: E.Numerics, n: Net, to: nat, e: E.ExecutorState, pd: PreparedDecode)
    requires NetInv(cfg, num, n) && to in n.executors && ExecutorOk(num, n.fabric, n.mail, e)
    requires forall pm | pm in pd.members :: PreparedOk(num, n.fabric, n.mail.requests, pm)
    ensures NetInv(cfg, num, n.(executors := n.executors[to := e],
                                mail := n.mail.(prepared := n.mail.prepared + {pd})))
  {
    var mail' := n.mail.(prepared := n.mail.prepared + {pd});
    forall p, pm | p in mail'.prepared && pm in p.members ensures PreparedOk(num, n.fabric, mail'.requests, pm) {
    }
    SelfEvolves(n.fabric);
    var es := n.executors[to := e];
    forall k | k in es ensures ExecutorOk(num, n.fabric, mail', es[k]) {
      ExecutorStays(num, n.fabric, n.fabric, n.mail, mail', es[k]);
    }
  }

  /**
   A grant that matches the staged transition was issued for the position the
   transition was staged at: promotion is the next step of the recurrence.
   */
  lemma PromoteOk(num: E.Numerics, f: F.FabricState, mail: Mail, e: E.ExecutorState, g: CommitGrant)
    requires MailOk(num, f, mail) && ExecutorOk(num, f, mail, e) && g in mail.grants && E.Promotes(e, g)
    ensures StateOk(num, f, mail.requests, g.auth.state, E.Promote(e.states[g.auth.state]))
  {
    var sid := g.auth.state;
    var st := e.states[sid];
    assert StateOk(num, f, mail.requests, sid, st) && GrantOk(num, f, mail.requests, g);
    var req, m, q :| req in mail.requests && StagedBy(num, st, st.tentative.value, req, m, q);
    assert PositionedFor(req, g);
    PromoteStaged(num, st, req, m, q, g);
    assert Tracked(f, g.auth.sequence, sid);
  }

  lemma PromoteStaged(num: E.Numerics, st: E.SeqState, req: ExecutionRequest, m: MemberSpec, q: nat, g: CommitGrant)
    requires E.OnOrbit(num, st) && E.Matches(st, g) && StagedBy(num, st, st.tentative.value, req, m, q)
    requires PositionedFor(req, g)
    ensures q == st.tokens == g.position && E.OnOrbit(num, E.Promote(st)) && E.Promote(st).tokens == g.position + 1
  {
  }

  lemma GrantReceipt(num: E.Numerics, f: F.FabricState, requests: set<ExecutionRequest>, g: CommitGrant)
    requires GrantOk(num, f, requests, g)
    ensures ReceiptOk(num, f, requests, E.ReceiptFor(g))
  {
  }

  lemma PromotedOk(num: E.Numerics, f: F.FabricState, mail: Mail, e: E.ExecutorState, g: CommitGrant)
    requires MailOk(num, f, mail) && ExecutorOk(num, f, mail, e) && g in mail.grants && E.Promotes(e, g)
    ensures var (e', r) := E.Commit(e, g);
      && r == Ok(E.ReceiptFor(g)) && ReceiptOk(num, f, mail.requests, E.ReceiptFor(g))
      && (forall sid | sid in e'.states :: StateOk(num, f, mail.requests, sid, e'.states[sid]))
      && (forall k | k in e'.receipts :: e'.receipts[k] in mail.receipts || e'.receipts[k] == E.ReceiptFor(g))
  {
    PromoteOk(num, f, mail, e, g);
    GrantReceipt(num, f, mail.requests, g);
  }

  lemma CommitOk(num: E.Numerics, f: F.FabricState, mail: Mail, e: E.ExecutorState, g: CommitGrant)
    returns (e': E.ExecutorState, r: Result<MemberReceipt>)
    requires MailOk(num, f, mail) && ExecutorOk(num, f, mail, e) && g in mail.grants
    ensures E.Commit(e, g) == (e', r)
    ensures forall sid | sid in e'.states :: StateOk(num, f, mail.requests, sid, e'.states[sid])
    ensures r.Ok? ==> ReceiptOk(num, f, mail.requests, r.value)
    ensures forall k | k in e'.receipts :: e'.receipts[k] in mail.receipts || r == Ok(e'.receipts[k])
  {
    e', r := E.Commit(e, g).0, E.Commit(e, g).1;
    if E.Promotes(e, g) {
      PromotedOk(num, f, mail, e, g);
    } else if r.Ok? {
      assert r.value in mail.receipts;
    }
  }

  lemma GrantDelivered(cfg: F.Config, num: E.Numerics, n: Net, to: nat, g: CommitGrant)
    returns (e: E.ExecutorState, r: Result<MemberReceipt>, n': Net)
    requires NetInv(cfg, num, n) && to in n.executors && g in n.mail.grants
    ensures E.Commit(n.executors[to], g) == (e, r) && NetInv(cfg, num, n')
    ensures n' == n.(executors := n.executors[to := e],
                     mail := n.mail.(receipts := n.mail.receipts + if r.Ok? then {r.value} else {}))
  {
    assert ExecutorOk(num, n.fabric, n.mail, n.executors[to]);
    e, r := CommitOk(num, n.fabric, n.mail, n.executors[to], g);
    n' := ReceiptSent(cfg, num, n, to, e, r);
  }

  lemma ReceiptSent(cfg: F.Config, num: E.Numerics, n: Net, to: nat, e: E.ExecutorState, r: Result<MemberReceipt>)
    returns (n': Net)
    requires NetInv(cfg, num, n) && to in n.executors
    requires forall sid | sid in e.states :: StateOk(num, n.fabric, n.mail.requests, sid, e.states[sid])
    requires r.Ok? ==> ReceiptOk(num, n.fabric, n.mail.requests, r.value)
    requires forall k | k in e.receipts :: e.receipts[k] in n.mail.receipts || r == Ok(e.receipts[k])
    ensures n' == n.(executors := n.executors[to := e],
                     mail := n.mail.(receipts := n.mail.receipts + if r.Ok? then {r.value} else {}))
    ensures NetInv(cfg, num, n')
  {
    var mail' := n.mail.(receipts := n.mail.receipts + if r.Ok? then {r.value} else {});
    forall p, pm | p in mail'.prepared && pm in p.members ensures PreparedOk(num, n.fabric, mail'.requests, pm) {
    }
    SelfEvolves(n.fabric);
    var es := n.executors[to := e];
    forall k | k in es ensures ExecutorOk(num, n.fabric, mail', es[k]) {
      if k != to {
        ExecutorStays(num, n.fabric, n.fabric, n.mail, mail', n.executors[k]);
      }
    }
    n' := n.(executors := es, mail := mail');
  }

  lemma AbortOk(num: E.Numerics, f: F.FabricState, mail: Mail, e: E.ExecutorState, a: AbortPrepared)
    requires ExecutorOk(num, f, mail, e)
    ensures ExecutorOk(num, f, mail, E.Abort(e, a).0)
  {
    var e' := E.Abort(e, a).0;
    forall sid | sid in e'.states ensures StateOk(num, f, mail.requests, sid, e'.states[sid]) {
      assert StateOk(num, f, mail.requests, sid, e.states[sid]);
    }
  }

  // ---------------------------------------------------------------------------
  // All actions

  lemma ExecutorChange(cfg: F.Config, num: E.Numerics, n: Net, to: nat, e: E.ExecutorState)
    requires NetInv(cfg, num, n) && ExecutorOk(num, n.fabric, n.mail, e)
    ensures NetInv(cfg, num, n.(executors := n.executors[to := e]))
  {
  }

  lemma DeliverReceiptsKeeps(cfg: F.Config, num: E.Numerics, n: Net, recs: seq<MemberReceipt>) returns (n': Net)
    requires NetInv(cfg, num, n)
    ensures n' == Apply(cfg, num, n, DeliverReceipts(recs)) && NetInv(cfg, num, n')
  {
    n' := n;
    if forall r | r in recs :: r.(committedAt := 0) in n.mail.receipts {
      var f', done;
      f', done, n' := ReceiptsDelivered(cfg, num, n, recs);
    }
  }

  lemma GrantApplies(cfg: F.Config, num: E.Numerics, n: Net, to: nat, g: CommitGrant, e: E.ExecutorState,
                     r: Result<MemberReceipt>)
    requires to in n.executors && g in n.mail.grants && E.Commit(n.executors[to], g) == (e, r)
    ensures Apply(cfg, num, n, DeliverGrant(to, g))
      == n.(executors := n.executors[to := e],
            mail := n.mail.(receipts := n.mail.receipts + if r.Ok? then {r.value} else {}))
  {
  }

  lemma DeliverGrantKeeps(cfg: F.Config, num: E.Numerics, n: Net, to: nat, g: CommitGrant)
    requires NetInv(cfg, num, n) && to in n.executors && g in n.mail.grants
    ensures NetInv(cfg, num, Apply(cfg, num, n, DeliverGrant(to, g)))
  {
    var e, r, n' := GrantDelivered(cfg, num, n, to, g);
    GrantApplies(cfg, num, n, to, g, e, r);
  }

  lemma DeliverAbortKeeps(cfg: F.Config, num: E.Numerics, n: Net, to: nat, abort: AbortPrepared) returns (n': Net)
    requires NetInv(cfg, num, n)
    ensures n' == Apply(cfg, num, n, DeliverAbort(to, abort)) && NetInv(cfg, num, n')
  {
    n' := n;
    if to in n.executors {
      AbortOk(num, n.fabric, n.mail, n.executors[to], abort);
      ExecutorChange(cfg, num, n, to, E.Abort(n.executors[to], abort).0);
      n' := n.(executors := n.executors[to := E.Abort(n.executors[to], abort).0]);
    }
  }

  lemma ApplyKeeps(cfg: F.Config, num: E.Numerics, n: Net, a: Action)
    requires NetInv(cfg, num, n)
    ensures NetInv(cfg, num, Apply(cfg, num, n, a))
  {
    match a
    case Local(op) =>
      O.OperateKeeps(cfg, n.fabric, op);
      QuietKeeps(cfg, num, n, O.Operate(cfg, n.fabric, op));
    case Schedule(now, order, workerOrder, score) => ScheduleKeeps(cfg, num, n, now, order, workerOrder, score);
    case DeliverPrepared(pd) => DeliverPreparedKeeps(cfg, num, n, pd);
    case DeliverReceipts(recs) => var _ := DeliverReceiptsKeeps(cfg, num, n, recs);
    case DeliverRequest(to, req, ns) => DeliverRequestKeeps(cfg, num, n, to, req, ns);
    case DeliverGrant(to, g) => if to in n.executors && g in n.mail.grants { DeliverGrantKeeps(cfg, num, n, to, g); }
    case DeliverAbort(to, abort) => var _ := DeliverAbortKeeps(cfg, num, n, to, abort);
    case Boot(to) => ExecutorChange(cfg, num, n, to, E.Fresh);
  }

  lemma ReceivedEvolves(cfg: F.Config, num: E.Numerics, n: Net, recs: seq<MemberReceipt>)
    requires NetInv(cfg, num, n) && forall r | r in recs :: r.(committedAt := 0) in n.mail.receipts
    ensures FI.Evolves(n.fabric, F.Receive(cfg, n.fabric, recs).0)
  {
    DeliveredReceiptsOk(num, n, recs);
    ReceiveUpTo(cfg, num, n.mail.requests, n.fabric, n.log, recs);
  }

  lemma ReceiptsEvolve(cfg: F.Config, num: E.Numerics, n: Net, recs: seq<MemberReceipt>) returns (f': F.FabricState)
    requires NetInv(cfg, num, n)
    ensures f' == Apply(cfg, num, n, DeliverReceipts(recs)).fabric && FI.Evolves(n.fabric, f')
  {
    f' := n.fabric;
    if forall r | r in recs :: r.(committedAt := 0) in n.mail.receipts {
      ReceivedEvolves(cfg, num, n, recs);
      f' := F.Receive(cfg, n.fabric, recs).0;
    } else {
      SelfEvolves(f');
    }
  }

  lemma PreparedEvolves(cfg: F.Config, num: E.Numerics, n: Net, pd: PreparedDecode)
    requires NetInv(cfg, num, n) && pd in n.mail.prepared
    ensures FI.Evolves(n.fabric, F.Authorise(cfg, n.fabric, pd, |pd.members|).0)
  {
    AuthoriseUpTo(cfg, num, n.fabric, n.mail, pd, |pd.members|);
  }

  lemma LocalEvolves(cfg: F.Config, f: F.FabricState, op: O.Operation)
    requires FI.Inv(cfg, f)
    ensures FI.Evolves(f, O.Operate(cfg, f, op))
  {
    O.OperateKeeps(cfg, f, op);
  }

  lemma SentEvolves(cfg: F.Config, f: F.FabricState, now: int, order: seq<nat>, workerOrder: seq<nat>,
                    score: map<nat, real>)
    requires FI.Inv(cfg, f)
    ensures FI.Evolves(f, F.Schedule(cfg, f, now, order, workerOrder, score).0)
  {
    FS.ScheduleKeeps(cfg, f, now, order, workerOrder, score);
  }

  /** Every action changes the coordinator's sequences only as `Evolves` allows. */
  lemma ApplyEvolves(cfg: F.Config, num: E.Numerics, n: Net, a: Action)
    requires NetInv(cfg, num, n)
    ensures FI.Evolves(n.fabric, Apply(cfg, num, n, a).fabric)
  {
    var f := n.fabric;
    SelfEvolves(f);
    match a
    case Local(op) => LocalEvolves(cfg, f, op);
    case Schedule(now, order, workerOrder, score) => SentEvolves(cfg, f, now, order, workerOrder, score);
    case DeliverPrepared(pd) =>
      if pd in n.mail.prepared { PreparedEvolves(cfg, num, n, pd); }
    case DeliverReceipts(recs) => var _ := ReceiptsEvolve(cfg, num, n, recs);
    case _ =>
  }

  lemma DeliveredReceiptsOk(num: E.Numerics, n: Net, recs: seq<MemberReceipt>)
    requires MailOk(num, n.fabric, n.mail) && forall r | r in recs :: r.(committedAt := 0) in n.mail.receipts
    ensures forall r | r in recs :: ReceiptOk(num, n.fabric, n.mail.requests, r)
  {
    forall r | r in recs ensures ReceiptOk(num, n.fabric, n.mail.requests, r) {
      assert ReceiptOk(num, n.fabric, n.mail.requests, r.(committedAt := 0));
    }
  }

  lemma {:induction false} RunFromKeeps(cfg: F.Config, num: E.Numerics, n: Net, actions: seq<Action>)
    requires NetInv(cfg, num, n)
    ensures NetInv(cfg, num, RunFrom(cfg, num, n, actions))
    ensures FI.Evolves(n.fabric, RunFrom(cfg, num, n, actions).fabric)
  {
    if actions == [] {
      SelfEvolves(n.fabric);
    } else {
      var mid, a := RunFrom(cfg, num, n, actions[..|actions| - 1]), actions[|actions| - 1];
      RunFromKeeps(cfg, num, n, actions[..|actions| - 1]);
      ApplyKeeps(cfg, num, mid, a);
      ApplyEvolves(cfg, num, mid, a);
      FI.EvolvesTrans(cfg, n.fabric, mid.fabric, Apply(cfg, num, mid, a).fabric);
    }
  }

  lemma RunKeeps(cfg: F.Config, num: E.Numerics, actions: seq<Action>)
    ensures NetInv(cfg, num, Run(cfg, num, actions))
  {
    RunFromKeeps(cfg, num, Start, actions);
  }
}
