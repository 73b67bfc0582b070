/**
 How sequences end, over whole runs: which token is the last one, what a completed sequence has
 to do with its receipts, and what was prepared before an epoch, an attempt or a boot ended.
 */
module Endings {
  // Every finalised receipt is marked as the last one exactly when its step made the end token
  // that a request asked for, or used up the budget; and a sequence is completed exactly by
  // such receipts.

  import opened Types
  import opened Network
  import opened NetworkInvariants
  import opened EndTokens
  import A = Answers
  import C = Courses
  import F = Fabric
  import FI = FabricInvariants
  import FN = Fences
  import FS = FabricSteps
  import O = Operations
  import E = Executor
  import PS = PumpSchedule
  import RP = Replay
  import S = NetworkSteps

  // ---------------------------------------------------------------------------
  // What messages tell

  predicate Asked(rs: set<ExecutionRequest>, req: ExecutionRequest, m: MemberSpec) {
    req in rs && m in req.members
  }

  /** The state started with this member. */
  predicate Began(m: MemberSpec, st: E.SeqState) {
    st.origin == E.OriginOf(m) && Keeps(m.payload, st)
  }

  ghost predicate StateTold(rs: set<ExecutionRequest>, st: E.SeqState) {
    exists req, m :: Asked(rs, req, m) && Began(m, st)
  }

  /** The authority is about this member of this dispatch. */
  predicate About(a: Authority, req: ExecutionRequest, m: MemberSpec) {
    && a.dispatch == req.dispatch && a.sequence == m.sequence && a.state == m.state.id
    && a.attempt == m.attempt && a.generation == m.generation
  }

  /** The token of the step at `pos` of the recurrence that started with `m`. */
  function TokenAt(num: E.Numerics, m: MemberSpec, pos: nat): nat {
    num.token(E.OrbitVec(num, E.OriginOf(m), pos + 1))
  }

  /** The step at `pos`, prepared for `m` on a state that started with `m0`, made this token and says if it is last. */
  predicate Tells(num: E.Numerics, a: Authority, pos: nat, token: nat, terminal: bool, m0: MemberSpec,
                  req: ExecutionRequest, m: MemberSpec) {
    && About(a, req, m) && m0.state.id == m.state.id && token == TokenAt(num, m0, pos) % TWO32
    && (terminal <==> LastStep(m0.payload, TokenAt(num, m0, pos), m))
  }

  ghost predicate PreparedTold(num: E.Numerics, rs: set<ExecutionRequest>, pm: PreparedMember) {
    exists req0, m0, req, m :: Asked(rs, req0, m0) && Asked(rs, req, m) && pm.auth == E.AuthorityOf(req, m)
      && Tells(num, pm.auth, pm.before, pm.outcome.token % TWO32, pm.outcome.terminal, m0, req, m)
  }

  /** A step at the position its dispatch was sent for. */
  ghost predicate StepTold(num: E.Numerics, rs: set<ExecutionRequest>, a: Authority, pos: nat, token: nat,
                           terminal: bool) {
    exists req0, m0, req, m :: Asked(rs, req0, m0) && Asked(rs, req, m)
      && Tells(num, a, pos, token, terminal, m0, req, m) && m.generatedTokens == pos
  }

  ghost predicate ReceiptTold(num: E.Numerics, rs: set<ExecutionRequest>, r: MemberReceipt) {
    StepTold(num, rs, r.auth, r.before, r.token, r.terminal)
  }

  ghost predicate MailTold(num: E.Numerics, mail: Mail) {
    && (forall pd, pm | pd in mail.prepared && pm in pd.members :: PreparedTold(num, mail.requests, pm))
    && (forall g | g in mail.grants :: StepTold(num, mail.requests, g.auth, g.position, g.token, g.terminal))
    && (forall r | r in mail.receipts :: ReceiptTold(num, mail.requests, r))
  }

  ghost predicate ExecutorTold(num: E.Numerics, rs: set<ExecutionRequest>, e: E.ExecutorState) {
    && (forall sid | sid in e.states :: StateTold(rs, e.states[sid]))
    && (forall k | k in e.receipts :: ReceiptTold(num, rs, e.receipts[k]))
  }

  ghost predicate LogTold(num: E.Numerics, rs: set<ExecutionRequest>, log: map<nat, seq<MemberReceipt>>) {
    forall id, r | id in log && r in log[id] :: ReceiptTold(num, rs, r)
  }

  ghost predicate NetTold(num: E.Numerics, n: Net) {
    && MailTold(num, n.mail) && LogTold(num, n.mail.requests, n.log)
    && (forall e | e in n.executors :: ExecutorTold(num, n.mail.requests, n.executors[e]))
    && (forall req | req in n.mail.requests :: req.epoch <= n.fabric.epoch)
  }

  // ---------------------------------------------------------------------------
  // More requests

  lemma PreparedGrows(num: E.Numerics, rs: set<ExecutionRequest>, more: set<ExecutionRequest>, pm: PreparedMember)
    requires PreparedTold(num, rs, pm) && rs <= more
    ensures PreparedTold(num, more, pm)
  {
    var req0, m0, req, m :| Asked(rs, req0, m0) && Asked(rs, req, m) && pm.auth == E.AuthorityOf(req, m)
      && Tells(num, pm.auth, pm.before, pm.outcome.token % TWO32, pm.outcome.terminal, m0, req, m);
    assert Asked(more, req0, m0) && Asked(more, req, m);
  }

  lemma StepGrows(num: E.Numerics, rs: set<ExecutionRequest>, more: set<ExecutionRequest>, a: Authority, pos: nat,
                  token: nat, terminal: bool)
    requires StepTold(num, rs, a, pos, token, terminal) && rs <= more
    ensures StepTold(num, more, a, pos, token, terminal)
  {
    var req0, m0, req, m :| Asked(rs, req0, m0) && Asked(rs, req, m)
      && Tells(num, a, pos, token, terminal, m0, req, m) && m.generatedTokens == pos;
    assert Asked(more, req0, m0) && Asked(more, req, m);
  }

  lemma StateGrows(rs: set<ExecutionRequest>, more: set<ExecutionRequest>, st: E.SeqState)
    requires StateTold(rs, st) && rs <= more
    ensures StateTold(more, st)
  {
    var req, m :| Asked(rs, req, m) && Began(m, st);
    assert Asked(more, req, m);
  }

  lemma MailGrows(num: E.Numerics, mail: Mail, more: set<ExecutionRequest>)
    requires MailTold(num, mail) && mail.requests <= more
    ensures MailTold(num, mail.(requests := more))
  {
    forall pd, pm | pd in mail.prepared && pm in pd.members ensures PreparedTold(num, more, pm) {
      PreparedGrows(num, mail.requests, more, pm);
    }
    forall g | g in mail.grants ensures StepTold(num, more, g.auth, g.position, g.token, g.terminal) {
      StepGrows(num, mail.requests, more, g.auth, g.position, g.token, g.terminal);
    }
    forall r | r in mail.receipts ensures ReceiptTold(num, more, r) {
      StepGrows(num, mail.requests, more, r.auth, r.before, r.token, r.terminal);
    }
  }

  lemma ExecutorGrows(num: E.Numerics, rs: set<ExecutionRequest>, more: set<ExecutionRequest>, e: E.ExecutorState)
    requires ExecutorTold(num, rs, e) && rs <= more
    ensures ExecutorTold(num, more, e)
  {
    forall sid | sid in e.states ensures StateTold(more, e.states[sid]) {
      StateGrows(rs, more, e.states[sid]);
    }
    forall k | k in e.receipts ensures ReceiptTold(num, more, e.receipts[k]) {
      var r := e.receipts[k];
      assert ReceiptTold(num, rs, r);
      StepGrows(num, rs, more, r.auth, r.before, r.token, r.terminal);
    }
  }

  lemma LogGrows(num: E.Numerics, rs: set<ExecutionRequest>, more: set<ExecutionRequest>,
                 log: map<nat, seq<MemberReceipt>>)
    requires LogTold(num, rs, log) && rs <= more
    ensures LogTold(num, more, log)
  {
    forall id, r | id in log && r in log[id] ensures ReceiptTold(num, more, r) {
      assert ReceiptTold(num, rs, r);
      StepGrows(num, rs, more, r.auth, r.before, r.token, r.terminal);
    }
  }

  lemma RequestsSent(num: E.Numerics, n: Net, f': F.FabricState, out: seq<ExecutionRequest>)
    requires NetTold(num, n) && n.fabric.epoch <= f'.epoch && forall req | req in out :: req.epoch <= f'.epoch
    ensures NetTold(num, n.(fabric := f', mail := n.mail.(requests := n.mail.requests + set r | r in out)))
  {
    var more := n.mail.requests + set r | r in out;
    MailGrows(num, n.mail, more);
    LogGrows(num, n.mail.requests, more, n.log);
    forall e | e in n.executors ensures ExecutorTold(num, more, n.executors[e]) {
      ExecutorGrows(num, n.mail.requests, more, n.executors[e]);
    }
  }

  lemma ScheduleTold(cfg: F.Config, num: E.Numerics, n: Net, now: int, order: seq<nat>, workerOrder: seq<nat>,
                     score: map<nat, real>)
    requires NetTold(num, n)
    ensures NetTold(num, Apply(cfg, num, n, Schedule(now, order, workerOrder, score)))
  {
    var (f', out) := F.Schedule(cfg, n.fabric, now, order, workerOrder, score);
    PS.ScheduleCarried(cfg, n.fabric, now, order, workerOrder, score);
    forall req | req in out ensures req.epoch <= f'.epoch {
      var r :| 0 <= r < |out| && out[r] == req;
      assert PS.Addressed(n.fabric, out[r], n.fabric.next.dispatch + r);
    }
    RequestsSent(num, n, f', out);
  }

  // ---------------------------------------------------------------------------
  // Grants and receipts

  lemma IssuedTold(cfg: F.Config, num: E.Numerics, f: F.FabricState, mail: Mail, pd: PreparedDecode, pm: PreparedMember)
    requires FI.Inv(cfg, f) && MailOk(num, f, mail) && PreparedTold(num, mail.requests, pm)
      && F.Authorised(cfg, f, pm)
    ensures var g := F.GrantFor(f.next.grant, pd, pm);
      StepTold(num, mail.requests, g.auth, g.position, g.token, g.terminal)
  {
    var g := F.GrantFor(f.next.grant, pd, pm);
    var req0, m0, req, m :| Asked(mail.requests, req0, m0) && Asked(mail.requests, req, m)
      && pm.auth == E.AuthorityOf(req, m)
      && Tells(num, pm.auth, pm.before, pm.outcome.token % TWO32, pm.outcome.terminal, m0, req, m);
    assert FS.RequestOk(f, req) && FS.SpecOk(f, req.dispatch, m);
    assert Tells(num, g.auth, g.position, g.token, g.terminal, m0, req, m);
  }

  ghost predicate RepliesTold(num: E.Numerics, rs: set<ExecutionRequest>, out: seq<F.Reply>) {
    forall r | r in out && r.SendGrant? ::
      StepTold(num, rs, r.grant.auth, r.grant.position, r.grant.token, r.grant.terminal)
  }

  lemma {:induction false} AuthoriseTold(cfg: F.Config, num: E.Numerics, f: F.FabricState, mail: Mail,
                                         pd: PreparedDecode, k: nat)
    returns (f': F.FabricState, out: seq<F.Reply>)
    requires FI.Inv(cfg, f) && MailOk(num, f, mail) && pd in mail.prepared && k <= |pd.members|
    requires forall pm | pm in pd.members :: PreparedTold(num, mail.requests, pm)
    ensures F.Authorise(cfg, f, pd, k) == (f', out) && RepliesTold(num, mail.requests, out)
  {
    f', out := f, [];
    if k > 0 {
      var f1, some := AuthoriseTold(cfg, num, f, mail, pd, k - 1);
      S.AuthoriseUpTo(cfg, num, f, mail, pd, k - 1);
      MailStays(num, f, f1, mail);
      var reply := AnswerTold(cfg, num, f1, mail, pd, pd.members[k - 1]);
      f', out := F.AuthoriseMember(cfg, f1, pd, pd.members[k - 1]).0, some + [reply];
    }
  }

  lemma AnswerTold(cfg: F.Config, num: E.Numerics, f: F.FabricState, mail: Mail, pd: PreparedDecode, pm: PreparedMember)
    returns (reply: F.Reply)
    requires FI.Inv(cfg, f) && MailOk(num, f, mail) && PreparedTold(num, mail.requests, pm)
    ensures reply == F.AuthoriseMember(cfg, f, pd, pm).1 && RepliesTold(num, mail.requests, [reply])
  {
    reply := F.AuthoriseMember(cfg, f, pd, pm).1;
    if F.Authorised(cfg, f, pm) {
      IssuedTold(cfg, num, f, mail, pd, pm);
    }
  }

  lemma PreparedArrives(cfg: F.Config, num: E.Numerics, n: Net, pd: PreparedDecode) returns (n': Net)
    requires NetInv(cfg, num, n) && NetTold(num, n) && pd in n.mail.prepared
    ensures var (f', out) := F.Authorise(cfg, n.fabric, pd, |pd.members|);
      n' == n.(fabric := f', mail := n.mail.(grants := n.mail.grants + Grants(out)))
    ensures NetTold(num, n')
  {
    var (f', out) := F.Authorise(cfg, n.fabric, pd, |pd.members|);
    n' := n.(fabric := f', mail := n.mail.(grants := n.mail.grants + Grants(out)));
    var _, _ := AuthoriseTold(cfg, num, n.fabric, n.mail, pd, |pd.members|);
    HonestMail(cfg, num, n, pd);
    C.AuthoriseCourse(n.fabric.next.dispatch, cfg, n.fabric, pd, |pd.members|);
  }

  lemma HonestMail(cfg: F.Config, num: E.Numerics, n: Net, pd: PreparedDecode)
    requires NetInv(cfg, num, n) && pd in n.mail.prepared
    ensures forall pm | pm in pd.members :: FS.Honest(pm)
  {
    forall pm | pm in pd.members ensures FS.Honest(pm) {
      assert PreparedOk(num, n.fabric, n.mail.requests, pm);
    }
  }

  lemma {:induction false} ReceivedFrom(cfg: F.Config, f: F.FabricState, recs: seq<MemberReceipt>)
    ensures forall r | r in F.Receive(cfg, f, recs).1 :: r in recs
  {
    if recs != [] {
      ReceivedFrom(cfg, f, recs[..|recs| - 1]);
    }
  }

  lemma {:induction false} LoggedTold(num: E.Numerics, rs: set<ExecutionRequest>, log: map<nat, seq<MemberReceipt>>,
                                      done: seq<MemberReceipt>)
    requires LogTold(num, rs, log) && forall r | r in done :: ReceiptTold(num, rs, r)
    ensures LogTold(num, rs, Logged(log, done))
  {
    if done != [] {
      var front, rec := done[..|done| - 1], done[|done| - 1];
      assert forall r | r in front :: r in done;
      LoggedTold(num, rs, log, front);
      var log1 := Logged(log, front);
      var log' := Logged(log, done);
      forall id, r | id in log' && r in log'[id] ensures ReceiptTold(num, rs, r) {
        if id == rec.auth.sequence && r != rec {
          assert r in Entries(log1, id);
        }
      }
    }
  }

  lemma ReceiptsArrive(cfg: F.Config, num: E.Numerics, n: Net, recs: seq<MemberReceipt>) returns (n': Net)
    requires FI.Inv(cfg, n.fabric) && NetTold(num, n)
      && forall r | r in recs :: r.(committedAt := 0) in n.mail.receipts
    ensures var (f', done) := F.Receive(cfg, n.fabric, recs); n' == n.(fabric := f', log := Logged(n.log, done))
    ensures NetTold(num, n')
  {
    var (f', done) := F.Receive(cfg, n.fabric, recs);
    n' := n.(fabric := f', log := Logged(n.log, done));
    ReceivedFrom(cfg, n.fabric, recs);
    forall r | r in done ensures ReceiptTold(num, n.mail.requests, r) {
      assert ReceiptTold(num, n.mail.requests, r.(committedAt := 0));
    }
    LoggedTold(num, n.mail.requests, n.log, done);
    C.InvBelow(cfg, n.fabric);
    C.ReceiveCourse(n.fabric.next.dispatch, cfg, n.fabric, recs);
  }

  // ---------------------------------------------------------------------------
  // Executors

  /** States are filed under their own id and lie on their recurrence. */
  ghost predicate Orbiting(num: E.Numerics, e: E.ExecutorState) {
    forall sid | sid in e.states :: e.states[sid].origin.state == sid && E.OnOrbit(num, e.states[sid])
  }

  lemma OrbitingOf(num: E.Numerics, f: F.FabricState, mail: Mail, e: E.ExecutorState)
    requires ExecutorOk(num, f, mail, e)
    ensures Orbiting(num, e)
  {
    forall sid | sid in e.states ensures e.states[sid].origin.state == sid && E.OnOrbit(num, e.states[sid]) {
      assert StateOk(num, f, mail.requests, sid, e.states[sid]);
    }
  }

  /** Some member of the requests started the state a member is prepared from. */
  lemma AdoptTold(num: E.Numerics, rs: set<ExecutionRequest>, e: E.ExecutorState, req: ExecutionRequest, m: MemberSpec)
    returns (req0: ExecutionRequest, m0: MemberSpec, st: E.SeqState)
    requires ExecutorTold(num, rs, e) && Orbiting(num, e) && Asked(rs, req, m)
    ensures st == E.Adopt(num, e, m) && Asked(rs, req0, m0) && Began(m0, st) && m0.state.id == m.state.id
    ensures E.OnOrbit(num, st) && st.origin.state == m.state.id
  {
    req0, m0, st := req, m, E.Initial(num, m);
    if m.state.id in e.states {
      st := e.states[m.state.id];
      assert StateTold(rs, st);
      req0, m0 :| Asked(rs, req0, m0) && Began(m0, st);
    } else {
      InitialKeeps(num, m);
    }
    E.CatchUpFollowsOrbit(num, st, m.generatedTokens);
    CatchUpKeeps(num, st, m.generatedTokens, m0.payload);
    st := E.Adopt(num, e, m);
  }

  lemma ReportTold(num: E.Numerics, rs: set<ExecutionRequest>, st: E.SeqState, req0: ExecutionRequest, m0: MemberSpec,
                   req: ExecutionRequest, m: MemberSpec, proposal: nat, ns: int)
    requires E.OnOrbit(num, st) && Asked(rs, req0, m0) && Asked(rs, req, m)
    requires Began(m0, st) && m0.state.id == m.state.id
    ensures PreparedTold(num, rs, E.Report(num, st, m, E.Stage(num, st, req, m, proposal), ns))
  {
    var t := E.Stage(num, st, req, m, proposal);
    var pm := E.Report(num, st, m, t, ns);
    E.StageFollowsOrbit(num, st, req, m, proposal, ns);
    ReportEnds(num, st, m, t, ns, m0.payload);
    assert Tells(num, pm.auth, pm.before, pm.outcome.token % TWO32, pm.outcome.terminal, m0, req, m);
  }

  lemma MemberTold(num: E.Numerics, rs: set<ExecutionRequest>, e: E.ExecutorState, req: ExecutionRequest,
                   m: MemberSpec, ns: int)
    returns (e': E.ExecutorState, r: Result<PreparedMember>)
    requires ExecutorTold(num, rs, e) && Orbiting(num, e) && Asked(rs, req, m)
    ensures E.PrepareMember(num, e, req, m, ns) == (e', r)
    ensures ExecutorTold(num, rs, e') && Orbiting(num, e') && (r.Ok? ==> PreparedTold(num, rs, r.value))
  {
    var req0, m0, st := AdoptTold(num, rs, e, req, m);
    ReportTold(num, rs, st, req0, m0, req, m, e.nextProposal + 1, ns);
    e', r := E.PrepareMember(num, e, req, m, ns).0, E.PrepareMember(num, e, req, m, ns).1;
    Restaged(num, rs, e, e', m.state.id, req0, m0);
  }

  lemma Restaged(num: E.Numerics, rs: set<ExecutionRequest>, e: E.ExecutorState, e': E.ExecutorState, sid: nat,
                 req0: ExecutionRequest, m0: MemberSpec)
    requires ExecutorTold(num, rs, e) && sid in e'.states && e'.states == e.states[sid := e'.states[sid]]
    requires e'.receipts == e.receipts && Asked(rs, req0, m0) && Began(m0, e'.states[sid])
    requires Orbiting(num, e) && e'.states[sid].origin.state == sid && E.OnOrbit(num, e'.states[sid])
    ensures ExecutorTold(num, rs, e') && Orbiting(num, e')
  {
    forall k | k in e'.states ensures StateTold(rs, e'.states[k]) {
      if k != sid {
        assert StateTold(rs, e.states[k]);
      }
    }
  }

  lemma {:induction false} PrepareTold(num: E.Numerics, rs: set<ExecutionRequest>, e: E.ExecutorState,
                                       req: ExecutionRequest, k: nat, ns: MemberSpec -> int)
    returns (e': E.ExecutorState, r: Result<seq<PreparedMember>>)
    requires ExecutorTold(num, rs, e) && Orbiting(num, e) && req in rs && k <= |req.members|
    ensures E.PrepareUpTo(num, e, req, k, ns) == (e', r) && ExecutorTold(num, rs, e') && Orbiting(num, e')
    ensures r.Ok? ==> forall pm | pm in r.value :: PreparedTold(num, rs, pm)
  {
    e', r := e, Ok([]);
    if k > 0 {
      e', r := PrepareTold(num, rs, e, req, k - 1, ns);
      if r.Ok? {
        var e2, last := MemberTold(num, rs, e', req, req.members[k - 1], ns(req.members[k - 1]));
        e', r := e2, if last.Ok? then Ok(r.value + [last.value]) else Err(last.error);
      }
    }
  }

  lemma RequestArrives(cfg: F.Config, num: E.Numerics, n: Net, to: nat, req: ExecutionRequest, ns: MemberSpec -> int)
    returns (n': Net)
    requires NetInv(cfg, num, n) && NetTold(num, n) && to in n.executors && req in n.mail.requests
    ensures var (e, r) := E.Prepare(num, n.executors[to], req, ns);
      n' == n.(executors := n.executors[to := e], mail := n.mail.(prepared := n.mail.prepared + {Answer(req, r)}))
    ensures NetTold(num, n')
  {
    OrbitingOf(num, n.fabric, n.mail, n.executors[to]);
    var e1, r1 := PrepareTold(num, n.mail.requests, n.executors[to], req, |req.members|, ns);
    var (e, r) := E.Prepare(num, n.executors[to], req, ns);
    n' := AnswerSent(num, n, to, e, Answer(req, r));
  }

  lemma AnswerSent(num: E.Numerics, n: Net, to: nat, e: E.ExecutorState, pd: PreparedDecode) returns (n': Net)
    requires NetTold(num, n) && ExecutorTold(num, n.mail.requests, e)
    requires forall pm | pm in pd.members :: PreparedTold(num, n.mail.requests, pm)
    ensures n' == n.(executors := n.executors[to := e], mail := n.mail.(prepared := n.mail.prepared + {pd}))
    ensures NetTold(num, n')
  {
    n' := n.(executors := n.executors[to := e], mail := n.mail.(prepared := n.mail.prepared + {pd}));
  }

  lemma CommitTold(num: E.Numerics, mail: Mail, e: E.ExecutorState, g: CommitGrant)
    requires ExecutorTold(num, mail.requests, e) && MailTold(num, mail) && g in mail.grants
    ensures var (e', r) := E.Commit(e, g);
      ExecutorTold(num, mail.requests, e') && (r.Ok? ==> ReceiptTold(num, mail.requests, r.value))
  {
    if E.Promotes(e, g) {
      var st := e.states[g.auth.state];
      assert StateTold(mail.requests, st);
      var req, m :| Asked(mail.requests, req, m) && Began(m, st);
      assert Began(m, E.Promote(st));
      assert ReceiptTold(num, mail.requests, E.ReceiptFor(g));
    }
  }

  lemma AbortTold(num: E.Numerics, rs: set<ExecutionRequest>, e: E.ExecutorState, a: AbortPrepared)
    requires ExecutorTold(num, rs, e)
    ensures ExecutorTold(num, rs, E.Abort(e, a).0)
  {
    if a.auth.state in e.states {
      var st := e.states[a.auth.state];
      assert StateTold(rs, st);
      var req, m :| Asked(rs, req, m) && Began(m, st);
      assert Began(m, st.(tentative := None));
    }
  }

  // ---------------------------------------------------------------------------
  // Every action

  lemma LocalTold(cfg: F.Config, num: E.Numerics, n: Net, op: O.Operation)
    requires FI.Inv(cfg, n.fabric) && NetTold(num, n)
    ensures NetTold(num, n.(fabric := O.Operate(cfg, n.fabric, op)))
  {
    C.LocalCourse(cfg, n.fabric, op);
  }

  lemma GrantArrives(num: E.Numerics, n: Net, to: nat, g: CommitGrant) returns (n': Net)
    requires NetTold(num, n) && to in n.executors && g in n.mail.grants
    ensures var (e, r) := E.Commit(n.executors[to], g);
      n' == n.(executors := n.executors[to := e],
               mail := n.mail.(receipts := n.mail.receipts + if r.Ok? then {r.value} else {}))
    ensures NetTold(num, n')
  {
    CommitTold(num, n.mail, n.executors[to], g);
    var (e, r) := E.Commit(n.executors[to], g);
    n' := n.(executors := n.executors[to := e],
             mail := n.mail.(receipts := n.mail.receipts + if r.Ok? then {r.value} else {}));
  }

  lemma ExecutorChanged(num: E.Numerics, n: Net, to: nat, e: E.ExecutorState)
    requires NetTold(num, n) && ExecutorTold(num, n.mail.requests, e)
    ensures NetTold(num, n.(executors := n.executors[to := e]))
  {
  }

  lemma CoordinatorTold(cfg: F.Config, num: E.Numerics, n: Net, a: Action)
    requires NetInv(cfg, num, n) && NetTold(num, n)
    requires a.Local? || a.Schedule? || a.DeliverPrepared?
    ensures NetTold(num, Apply(cfg, num, n, a))
  {
    match a
    case Local(op) => LocalTold(cfg, num, n, op);
    case Schedule(now, order, workerOrder, score) => ScheduleTold(cfg, num, n, now, order, workerOrder, score);
    case DeliverPrepared(pd) => if pd in n.mail.prepared { var _ := PreparedArrives(cfg, num, n, pd); }
  }

  lemma ReceiptsTold(cfg: F.Config, num: E.Numerics, n: Net, recs: seq<MemberReceipt>) returns (n': Net)
    requires FI.Inv(cfg, n.fabric) && NetTold(num, n)
    ensures n' == Apply(cfg, num, n, DeliverReceipts(recs)) && NetTold(num, n')
  {
    n' := n;
    if forall r | r in recs :: r.(committedAt := 0) in n.mail.receipts {
      n' := ReceiptsArrive(cfg, num, n, recs);
    }
  }

  lemma ActionTold(cfg: F.Config, num: E.Numerics, n: Net, a: Action)
    requires NetInv(cfg, num, n) && NetTold(num, n)
    ensures NetTold(num, Apply(cfg, num, n, a))
  {
    match a
    case DeliverRequest(to, req, ns) =>
      if to in n.executors && req in n.mail.requests {
        var _ := RequestArrives(cfg, num, n, to, req, ns);
      }
    case DeliverGrant(to, g) => if to in n.executors && g in n.mail.grants { var _ := GrantArrives(num, n, to, g); }
    case DeliverAbort(to, abort) =>
      if to in n.executors {
        AbortTold(num, n.mail.requests, n.executors[to], abort);
        ExecutorChanged(num, n, to, E.Abort(n.executors[to], abort).0);
      }
    case Boot(to) => ExecutorChanged(num, n, to, E.Fresh);
    case DeliverReceipts(recs) => var _ := ReceiptsTold(cfg, num, n, recs);
    case _ => CoordinatorTold(cfg, num, n, a);
  }

  lemma {:induction false} RunTold(cfg: F.Config, num: E.Numerics, actions: seq<Action>)
    ensures NetInv(cfg, num, Run(cfg, num, actions)) && NetTold(num, Run(cfg, num, actions))
  {
    S.RunKeeps(cfg, num, actions);
    if actions != [] {
      RunTold(cfg, num, actions[..|actions| - 1]);
      ActionTold(cfg, num, Run(cfg, num, actions[..|actions| - 1]), actions[|actions| - 1]);
    }
  }

  lemma ReceiptMeans(num: E.Numerics, f: F.FabricState, mail: Mail, r: MemberReceipt) returns (m0: MemberSpec)
    requires MailOk(num, f, mail) && ReceiptTold(num, mail.requests, r) && r.auth.sequence in f.seqs
    ensures (exists req :: Asked(mail.requests, req, m0)) && m0.state.id == f.seqs[r.auth.sequence].kv.id
    ensures r.token == TokenAt(num, m0, r.before) % TWO32
    ensures r.terminal <==>
      Hits(m0.payload, TokenAt(num, m0, r.before)) || r.before + 1 >= f.seqs[r.auth.sequence].req.maxGeneration
  {
    var req0, n0, req, m :| Asked(mail.requests, req0, n0) && Asked(mail.requests, req, m)
      && Tells(num, r.auth, r.before, r.token, r.terminal, n0, req, m) && m.generatedTokens == r.before;
    assert FS.RequestOk(f, req) && FS.SpecOk(f, req.dispatch, m);
    m0 := n0;
  }

  lemma LoggedMeans(cfg: F.Config, num: E.Numerics, n: Net, id: nat, i: nat)
    requires NetInv(cfg, num, n) && NetTold(num, n) && id in n.fabric.seqs && i < |Entries(n.log, id)|
    ensures var r := Entries(n.log, id)[i]; ReceiptTold(num, n.mail.requests, r) && r.auth.sequence == id
  {
    var r := Entries(n.log, id)[i];
    assert r in n.log[id];
    assert LogOk(num, n.mail.requests, id, n.fabric.seqs[id], Entries(n.log, id));
    assert EntryOk(id, n.fabric.seqs[id].tally, Entries(n.log, id), i);
  }

  /**
   A finalised receipt is marked as the last one if and only if its step made the end token that
   a request of the run asked for with the sequence's state, or used up the sequence's budget.
   */
  lemma LastExactly(cfg: F.Config, num: E.Numerics, actions: seq<Action>, id: nat, i: nat) returns (m0: MemberSpec)
    requires var n := Run(cfg, num, actions); id in n.fabric.seqs && i < |Entries(n.log, id)|
    ensures var n := Run(cfg, num, actions); var r := Entries(n.log, id)[i];
      && (exists req :: Asked(n.mail.requests, req, m0)) && m0.state.id == n.fabric.seqs[id].kv.id
      && r.token == TokenAt(num, m0, r.before) % TWO32
      && (r.terminal <==>
            Hits(m0.payload, TokenAt(num, m0, r.before)) || r.before + 1 >= n.fabric.seqs[id].req.maxGeneration)
  {
    var n := Run(cfg, num, actions);
    RunTold(cfg, num, actions);
    LoggedMeans(cfg, num, n, id, i);
    m0 := ReceiptMeans(num, n.fabric, n.mail, Entries(n.log, id)[i]);
  }

  // ---------------------------------------------------------------------------
  // Completed sequences

  ghost predicate SaysLast(es: seq<MemberReceipt>) {
    exists i | 0 <= i < |es| :: es[i].terminal
  }

  /** What the end of a sequence has to do with its receipts. */
  ghost predicate Concluded(f: F.FabricState, id: nat, es: seq<MemberReceipt>)
    requires id in f.seqs
  {
    var s := f.seqs[id];
    && (s.state.Completed? ==> es != [] && (es[|es| - 1].terminal || C.UsedUp(s)))
    && (C.Completed(f, id) ==> SaysLast(es) || C.UsedUp(s))
    && (SaysLast(es) || (es != [] && C.UsedUp(s)) ==> id in f.terminal)
  }

  ghost predicate AllConcluded(f: F.FabricState, log: map<nat, seq<MemberReceipt>>) {
    && f.terminal.Keys <= f.seqs.Keys && log.Keys <= f.seqs.Keys
    && (forall id | id in f.seqs :: Concluded(f, id, Entries(log, id)))
  }

  lemma QuietConcludes(f: F.FabricState, f': F.FabricState, log: map<nat, seq<MemberReceipt>>, floor: nat)
    requires AllConcluded(f, log) && C.Turn(floor, f, f') && C.Quiet(f, f') && FI.Steady(f, f')
    requires forall id | id in f'.seqs && id !in f.seqs :: !f'.seqs[id].state.Completed?
    ensures AllConcluded(f', log)
  {
    forall id | id in f'.seqs ensures Concluded(f', id, Entries(log, id)) {
      if id in f.seqs {
        assert Concluded(f, id, Entries(log, id)) && C.SeqQuiet(f.seqs[id], f'.seqs[id]);
      }
    }
  }

  lemma LastReceipt(es: seq<MemberReceipt>, r: MemberReceipt)
    ensures SaysLast(es + [r]) <==> SaysLast(es) || r.terminal
  {
    if SaysLast(es) {
      var i :| 0 <= i < |es| && es[i].terminal;
      assert (es + [r])[i].terminal;
    }
    if r.terminal {
      assert (es + [r])[|es|].terminal;
    }
  }

  lemma GrownBudget(cfg: F.Config, f: F.FabricState, rec: MemberReceipt)
    requires FI.Inv(cfg, f) && F.Finalises(f, rec)
    ensures var id := rec.auth.sequence; var t := F.Finalise(cfg, f, rec).seqs[id];
      && (C.UsedUp(t) <==> f.seqs[id].tally.generated + 1 >= f.seqs[id].req.maxGeneration)
      && (t.state.Completed? ==> A.Last(f.seqs[id], rec))
  {
    FI.LockstepOf(cfg, f, rec.auth.sequence);
  }

  lemma FinaliseConcludes(cfg: F.Config, f: F.FabricState, log: map<nat, seq<MemberReceipt>>, rec: MemberReceipt)
    returns (f': F.FabricState)
    requires FI.Inv(cfg, f) && AllConcluded(f, log) && F.Finalises(f, rec)
    ensures f' == F.Finalise(cfg, f, rec)
    ensures AllConcluded(f', log[rec.auth.sequence := Entries(log, rec.auth.sequence) + [rec]])
  {
    var id := rec.auth.sequence;
    f' := F.Finalise(cfg, f, rec);
    A.EndsExactly(cfg, f, rec);
    GrownBudget(cfg, f, rec);
    FS.FinaliseOthers(cfg, f, rec);
    C.FinaliseCourse(0, cfg, f, rec);
    LastReceipt(Entries(log, id), rec);
    assert Concluded(f, id, Entries(log, id));
    assert Concluded(f', id, Entries(log, id) + [rec]);
    OthersConcluded(f, f', log, id, Entries(log, id) + [rec], cfg, rec);
  }

  lemma OthersConcluded(f: F.FabricState, f': F.FabricState, log: map<nat, seq<MemberReceipt>>, id: nat,
                        es: seq<MemberReceipt>, cfg: F.Config, rec: MemberReceipt)
    requires AllConcluded(f, log) && F.Finalises(f, rec) && id == rec.auth.sequence && f' == F.Finalise(cfg, f, rec)
    requires f'.seqs.Keys == f.seqs.Keys && forall k | k in f.seqs && k != id :: f'.seqs[k] == f.seqs[k]
    requires id in f.seqs && Concluded(f', id, es)
    ensures AllConcluded(f', log[id := es])
  {
    forall k | k in f'.seqs ensures Concluded(f', k, Entries(log[id := es], k)) {
      if k != id {
        assert Concluded(f, k, Entries(log, k));
      }
    }
  }

  lemma {:induction false} ReceiveConcludes(cfg: F.Config, f: F.FabricState, log: map<nat, seq<MemberReceipt>>,
                                            recs: seq<MemberReceipt>)
    returns (f': F.FabricState, done: seq<MemberReceipt>)
    requires FI.Inv(cfg, f) && AllConcluded(f, log)
    ensures F.Receive(cfg, f, recs) == (f', done) && FI.Inv(cfg, f') && AllConcluded(f', Logged(log, done))
  {
    f', done := f, [];
    if recs != [] {
      var rec := recs[|recs| - 1];
      f', done := ReceiveConcludes(cfg, f, log, recs[..|recs| - 1]);
      if F.Finalises(f', rec) {
        FS.FinaliseKeeps(cfg, f', rec);
        assert (done + [rec])[..|done|] == done;
        var f2 := FinaliseConcludes(cfg, f', Logged(log, done), rec);
        f', done := f2, done + [rec];
      }
    }
  }

  lemma LocalConcludes(cfg: F.Config, f: F.FabricState, log: map<nat, seq<MemberReceipt>>, op: O.Operation)
    requires FI.Inv(cfg, f) && AllConcluded(f, log)
    ensures AllConcluded(O.Operate(cfg, f, op), log)
  {
    var f' := O.Operate(cfg, f, op);
    C.LocalCourse(cfg, f, op);
    O.OperateKeeps(cfg, f, op);
    NewcomersOpen(cfg, f, op);
    QuietConcludes(f, f', log, f.next.dispatch);
  }

  lemma NewcomersOpen(cfg: F.Config, f: F.FabricState, op: O.Operation)
    requires FI.Inv(cfg, f)
    ensures var f' := O.Operate(cfg, f, op);
      forall id | id in f'.seqs && id !in f.seqs :: !f'.seqs[id].state.Completed?
  {
    match op
    case Submit(req, workerOrder, admit) =>
    case Restart(inPlace) =>
    case _ => O.PlainKeeps(cfg, f, op);
  }

  lemma SentConcludes(cfg: F.Config, f: F.FabricState, log: map<nat, seq<MemberReceipt>>, now: int, order: seq<nat>,
                      workerOrder: seq<nat>, score: map<nat, real>)
    requires FI.Inv(cfg, f) && AllConcluded(f, log)
    ensures AllConcluded(F.Schedule(cfg, f, now, order, workerOrder, score).0, log)
  {
    C.ScheduleCourse(cfg, f, now, order, workerOrder, score);
    FS.ScheduleKeeps(cfg, f, now, order, workerOrder, score);
    QuietConcludes(f, F.Schedule(cfg, f, now, order, workerOrder, score).0, log, f.next.dispatch);
  }

  lemma AnswersConclude(cfg: F.Config, num: E.Numerics, n: Net, pd: PreparedDecode)
    requires NetInv(cfg, num, n) && AllConcluded(n.fabric, n.log) && pd in n.mail.prepared
    ensures AllConcluded(F.Authorise(cfg, n.fabric, pd, |pd.members|).0, n.log)
  {
    HonestMail(cfg, num, n, pd);
    C.AuthoriseCourse(n.fabric.next.dispatch, cfg, n.fabric, pd, |pd.members|);
    S.AuthoriseUpTo(cfg, num, n.fabric, n.mail, pd, |pd.members|);
    QuietConcludes(n.fabric, F.Authorise(cfg, n.fabric, pd, |pd.members|).0, n.log, n.fabric.next.dispatch);
  }

  lemma ActionConcludes(cfg: F.Config, num: E.Numerics, n: Net, a: Action)
    requires NetInv(cfg, num, n) && AllConcluded(n.fabric, n.log)
    ensures var n' := Apply(cfg, num, n, a); AllConcluded(n'.fabric, n'.log)
  {
    match a
    case Local(op) => LocalConcludes(cfg, n.fabric, n.log, op);
    case Schedule(now, order, workerOrder, score) =>
      SentConcludes(cfg, n.fabric, n.log, now, order, workerOrder, score);
    case DeliverPrepared(pd) => if pd in n.mail.prepared { AnswersConclude(cfg, num, n, pd); }
    case DeliverReceipts(recs) => var _, _ := ReceiveConcludes(cfg, n.fabric, n.log, recs);
    case _ =>
  }

  lemma {:induction false} RunConcludes(cfg: F.Config, num: E.Numerics, actions: seq<Action>)
    ensures var n := Run(cfg, num, actions); AllConcluded(n.fabric, n.log)
  {
    if actions != [] {
      RunConcludes(cfg, num, actions[..|actions| - 1]);
      S.RunKeeps(cfg, num, actions[..|actions| - 1]);
      ActionConcludes(cfg, num, Run(cfg, num, actions[..|actions| - 1]), actions[|actions| - 1]);
    }
  }

  /**
   A completed sequence has its last receipt: that one is marked as the last, or used up the
   budget. A sequence recorded as completed has such a receipt, or had no budget left; and
   whenever it has one, an end is on record.
   */
  lemma CompletedExactly(cfg: F.Config, num: E.Numerics, actions: seq<Action>, id: nat)
    ensures var n := Run(cfg, num, actions);
      id in n.fabric.seqs ==>
        var s, es := n.fabric.seqs[id], Entries(n.log, id);
        && (s.state.Completed? ==> es != [] && (es[|es| - 1].terminal || s.tally.generated == s.req.maxGeneration))
        && (id in n.fabric.terminal && n.fabric.terminal[id].Completed? ==>
              SaysLast(es) || s.tally.generated == s.req.maxGeneration)
        && (SaysLast(es) || (es != [] && s.tally.generated == s.req.maxGeneration) ==> id in n.fabric.terminal)
  {
    var n := Run(cfg, num, actions);
    RunConcludes(cfg, num, actions);
    S.RunKeeps(cfg, num, actions);
    if id in n.fabric.seqs {
      FI.LockstepOf(cfg, n.fabric, id);
      assert Concluded(n.fabric, id, Entries(n.log, id));
    }
  }

  /** A completed sequence ended on the end token asked for with its state, or used up its budget. */
  lemma CompletedOnEndToken(cfg: F.Config, num: E.Numerics, actions: seq<Action>, id: nat) returns (m0: MemberSpec)
    requires var n := Run(cfg, num, actions); id in n.fabric.seqs && n.fabric.seqs[id].state.Completed?
    ensures var n := Run(cfg, num, actions); var s, es := n.fabric.seqs[id], Entries(n.log, id);
      && (exists req :: Asked(n.mail.requests, req, m0)) && m0.state.id == s.kv.id
      && es != [] && es[|es| - 1].token == TokenAt(num, m0, es[|es| - 1].before) % TWO32
      && (Hits(m0.payload, TokenAt(num, m0, es[|es| - 1].before)) || s.tally.generated == s.req.maxGeneration)
  {
    var n := Run(cfg, num, actions);
    var es := Entries(n.log, id);
    CompletedExactly(cfg, num, actions, id);
    m0 := LastExactly(cfg, num, actions, id, |es| - 1);
    S.RunKeeps(cfg, num, actions);
    LastBefore(cfg, num, n, id);
  }

  lemma LastBefore(cfg: F.Config, num: E.Numerics, n: Net, id: nat)
    requires NetInv(cfg, num, n) && id in n.fabric.seqs && Entries(n.log, id) != []
    ensures var s, es := n.fabric.seqs[id], Entries(n.log, id);
      es[|es| - 1].before + 1 == s.tally.generated <= s.req.maxGeneration
  {
    FI.LockstepOf(cfg, n.fabric, id);
    assert LogOk(num, n.mail.requests, id, n.fabric.seqs[id], Entries(n.log, id));
    assert EntryOk(id, n.fabric.seqs[id].tally, Entries(n.log, id), |Entries(n.log, id)| - 1);
  }

  // ---------------------------------------------------------------------------
  // What was on the network before

  lemma PreparedUnder(cfg: F.Config, num: E.Numerics, actions: seq<Action>, pd: PreparedDecode, pm: PreparedMember)
    requires var n := Run(cfg, num, actions); pd in n.mail.prepared && pm in pd.members
    ensures var n := Run(cfg, num, actions);
      && FI.Inv(cfg, n.fabric) && FS.Honest(pm)
      && pm.auth.epoch <= n.fabric.epoch && pm.auth.dispatch < n.fabric.next.dispatch
  {
    var n := Run(cfg, num, actions);
    RunTold(cfg, num, actions);
    assert PreparedTold(num, n.mail.requests, pm) && PreparedOk(num, n.fabric, n.mail.requests, pm);
    var req0, m0, req, m :| Asked(n.mail.requests, req0, m0) && Asked(n.mail.requests, req, m)
      && pm.auth == E.AuthorityOf(req, m)
      && Tells(num, pm.auth, pm.before, pm.outcome.token % TWO32, pm.outcome.terminal, m0, req, m);
  }

  /** Nothing prepared before an epoch rolled is granted after it. */
  lemma OldEpochRefused(cfg: F.Config, num: E.Numerics, actions: seq<Action>, steps: seq<RP.Step>, pd: PreparedDecode,
                        pm: PreparedMember)
    requires var n := Run(cfg, num, actions); pd in n.mail.prepared && pm in pd.members && FN.Honest(steps)
    ensures FN.Refuses(cfg, RP.TakeAll(cfg, F.RollEpoch(Run(cfg, num, actions).fabric), steps), pd, pm)
  {
    PreparedUnder(cfg, num, actions, pd, pm);
    FN.EpochFence(cfg, Run(cfg, num, actions).fabric, steps, pd, pm);
  }

  /** Nothing prepared before a retry is granted after it, unless the retry mints the same attempt id again. */
  lemma OldAttemptRefused(cfg: F.Config, num: E.Numerics, actions: seq<Action>, steps: seq<RP.Step>,
                          pd: PreparedDecode, pm: PreparedMember)
    requires var n := Run(cfg, num, actions); pd in n.mail.prepared && pm in pd.members && FN.Honest(steps)
    requires var f := Run(cfg, num, actions).fabric;
      FN.MayRetry(cfg, f, pm.auth.sequence) && pm.auth.attempt != f.next.dispatch + 1000000
    ensures var f := F.Retry(cfg, Run(cfg, num, actions).fabric, pm.auth.sequence);
      FN.Refuses(cfg, RP.TakeAll(cfg, f, steps), pd, pm)
  {
    PreparedUnder(cfg, num, actions, pd, pm);
    FN.RetryFence(cfg, Run(cfg, num, actions).fabric, steps, pd, pm);
  }

  /** Nothing a worker prepared before it registered under another boot is granted after it. */
  lemma OldBootRefused(cfg: F.Config, num: E.Numerics, actions: seq<Action>, w: F.Worker, steps: seq<RP.Step>,
                       pd: PreparedDecode, pm: PreparedMember)
    requires var n := Run(cfg, num, actions); pd in n.mail.prepared && pm in pd.members && FN.Honest(steps)
    requires w.id != NULL && w.boot != NULL && pm.auth.worker == w.id && pm.auth.workerBoot != w.boot
    requires forall st | st in steps :: !FN.Reboots(st, w.id, pm.auth.workerBoot)
    ensures FN.Refuses(cfg, RP.TakeAll(cfg, F.Register(cfg, Run(cfg, num, actions).fabric, w), steps), pd, pm)
  {
    PreparedUnder(cfg, num, actions, pd, pm);
    FN.BootFence(cfg, Run(cfg, num, actions).fabric, w, steps, pd, pm);
  }
}
