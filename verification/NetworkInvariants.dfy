/** What every run of the network keeps. */
module NetworkInvariants {
  import opened Types
  import opened Network
  import F = Fabric
  import FI = FabricInvariants
  import O = Operations
  import FS = FabricSteps
  import E = Executor

  // ---------------------------------------------------------------------------
  // Messages

  predicate LawfulFrom(num: E.Numerics, o: E.Origin, pos: nat, pre: nat, post: nat, token: nat) {
    && pre == E.OrbitDigest(num, o, pos) && post == E.OrbitDigest(num, o, pos + 1)
    && token == num.token(E.OrbitVec(num, o, pos + 1)) % TWO32
  }

  /** The recurrence starts where some request of the run asks for it. */
  predicate Requested(rs: set<ExecutionRequest>, o: E.Origin) {
    exists req, m | req in rs && m in req.members :: o == E.OriginOf(m)
  }

  /** One step of the recurrence from some origin of state `sid`. */
  ghost predicate Lawful(num: E.Numerics, rs: set<ExecutionRequest>, sid: nat, pos: nat, pre: nat, post: nat,
                         token: nat) {
    exists o: E.Origin :: o.state == sid && Requested(rs, o) && LawfulFrom(num, o, pos, pre, post, token)
  }

  lemma LawfulStays(num: E.Numerics, rs: set<ExecutionRequest>, rs': set<ExecutionRequest>, sid: nat, pos: nat,
                    pre: nat, post: nat, token: nat)
    requires Lawful(num, rs, sid, pos, pre, post, token) && rs <= rs'
    ensures Lawful(num, rs', sid, pos, pre, post, token)
  {
    var o: E.Origin :| o.state == sid && Requested(rs, o) && LawfulFrom(num, o, pos, pre, post, token);
    RequestedStays(rs, rs', o);
  }

  lemma RequestedStays(rs: set<ExecutionRequest>, rs': set<ExecutionRequest>, o: E.Origin)
    requires Requested(rs, o) && rs <= rs'
    ensures Requested(rs', o)
  {
    var req, m :| req in rs && m in req.members && o == E.OriginOf(m);
    assert req in rs';
  }

  predicate Tracked(f: F.FabricState, id: nat, sid: nat) {
    id in f.seqs && f.seqs[id].kv.id == sid
  }

  ghost predicate PreparedOk(num: E.Numerics, f: F.FabricState, rs: set<ExecutionRequest>, pm: PreparedMember) {
    && FS.Honest(pm) && Tracked(f, pm.auth.sequence, pm.auth.state) && pm.auth.dispatch < f.next.dispatch
    && Lawful(num, rs, pm.auth.state, pm.before, pm.pre, pm.post, pm.outcome.token % TWO32)
  }

  /** A grant sits at the position its dispatch was sent for, and that position has been reached. */
  ghost predicate GrantOk(num: E.Numerics, f: F.FabricState, requests: set<ExecutionRequest>, g: CommitGrant) {
    && Tracked(f, g.auth.sequence, g.auth.state)
    && g.position <= f.seqs[g.auth.sequence].tally.generated
    && g.auth.dispatch < f.next.dispatch
    && Lawful(num, requests, g.auth.state, g.position, g.pre, g.post, g.token)
    && (forall req | req in requests && req.dispatch == g.auth.dispatch :: PositionedFor(req, g))
  }

  predicate PositionedFor(req: ExecutionRequest, g: CommitGrant) {
    forall m | m in req.members && m.sequence == g.auth.sequence :: m.generatedTokens == g.position
  }

  ghost predicate ReceiptOk(num: E.Numerics, f: F.FabricState, rs: set<ExecutionRequest>, r: MemberReceipt) {
    && Tracked(f, r.auth.sequence, r.auth.state) && r.auth.dispatch < f.next.dispatch
    && Lawful(num, rs, r.auth.state, r.before, r.pre, r.post, r.token)
  }

  ghost predicate MailOk(num: E.Numerics, f: F.FabricState, mail: Mail) {
    && (forall req | req in mail.requests :: FS.RequestOk(f, req))
    && (forall pd, pm | pd in mail.prepared && pm in pd.members :: PreparedOk(num, f, mail.requests, pm))
    && (forall g | g in mail.grants :: GrantOk(num, f, mail.requests, g))
    && (forall r | r in mail.receipts :: ReceiptOk(num, f, mail.requests, r))
  }

  lemma MailStays(num: E.Numerics, f: F.FabricState, f': F.FabricState, mail: Mail)
    requires MailOk(num, f, mail) && FI.Evolves(f, f')
    ensures MailOk(num, f', mail)
  {
    forall req | req in mail.requests ensures FS.RequestOk(f', req) {
      FS.RequestStays(f, f', req);
    }
    forall id, sid | Tracked(f, id, sid)
      ensures Tracked(f', id, sid) && f.seqs[id].tally.generated <= f'.seqs[id].tally.generated
    {
      assert FI.SeqStep(f.next.dispatch, f.seqs[id], f'.seqs[id]);
    }
    forall pd, pm | pd in mail.prepared && pm in pd.members ensures PreparedOk(num, f', mail.requests, pm) {
      assert PreparedOk(num, f, mail.requests, pm);
    }
  }

  // ---------------------------------------------------------------------------
  // Executors

  /** Some sequence that uses this state is at most one token behind. */
  ghost predicate Lead(f: F.FabricState, sid: nat, tokens: nat) {
    exists id :: Tracked(f, id, sid) && tokens <= f.seqs[id].tally.generated + 1
  }

  /** The staged transition came from request `req`, at token position `q`. */
  predicate StagedBy(num: E.Numerics, st: E.SeqState, t: E.Tentative, req: ExecutionRequest, m: MemberSpec, q: nat) {
    && m in req.members && req.dispatch == t.auth.dispatch && m.sequence == t.auth.sequence
    && m.generatedTokens <= q <= st.tokens && E.StagedAt(num, st.origin, t, q)
  }

  ghost predicate StagedOk(num: E.Numerics, requests: set<ExecutionRequest>, st: E.SeqState) {
    st.tentative.Some? ==>
      exists req, m, q :: req in requests && StagedBy(num, st, st.tentative.value, req, m, q)
  }

  ghost predicate StateOk(num: E.Numerics, f: F.FabricState, requests: set<ExecutionRequest>, sid: nat,
                          st: E.SeqState) {
    && st.origin.state == sid && Requested(requests, st.origin) && E.OnOrbit(num, st)
    && Lead(f, sid, st.tokens) && StagedOk(num, requests, st)
  }

  ghost predicate ExecutorOk(num: E.Numerics, f: F.FabricState, mail: Mail, e: E.ExecutorState) {
    && (forall sid | sid in e.states :: StateOk(num, f, mail.requests, sid, e.states[sid]))
    && (forall k | k in e.receipts :: e.receipts[k] in mail.receipts)
  }

  lemma LeadStays(f: F.FabricState, f': F.FabricState, sid: nat, tokens: nat)
    requires Lead(f, sid, tokens) && FI.Evolves(f, f')
    ensures Lead(f', sid, tokens)
  {
    var id :| Tracked(f, id, sid) && tokens <= f.seqs[id].tally.generated + 1;
    assert FI.SeqStep(f.next.dispatch, f.seqs[id], f'.seqs[id]);
    assert Tracked(f', id, sid);
  }

  lemma StagedStays(num: E.Numerics, rs: set<ExecutionRequest>, rs': set<ExecutionRequest>, st: E.SeqState)
    requires StagedOk(num, rs, st) && rs <= rs'
    ensures StagedOk(num, rs', st)
  {
  }

  lemma ExecutorStays(num: E.Numerics, f: F.FabricState, f': F.FabricState, mail: Mail, mail': Mail, e: E.ExecutorState)
    requires ExecutorOk(num, f, mail, e) && FI.Evolves(f, f')
    requires mail.requests <= mail'.requests && mail.receipts <= mail'.receipts
    ensures ExecutorOk(num, f', mail', e)
  {
    forall sid | sid in e.states
      ensures StateOk(num, f', mail'.requests, sid, e.states[sid])
    {
      assert StateOk(num, f, mail.requests, sid, e.states[sid]);
      LeadStays(f, f', sid, e.states[sid].tokens);
      RequestedStays(mail.requests, mail'.requests, e.states[sid].origin);
      StagedStays(num, mail.requests, mail'.requests, e.states[sid]);
    }
  }

  // ---------------------------------------------------------------------------
  // The history of finalised receipts

  /** Entry `i` finalised generation `i + 1`, at the next position, from the previous entry's post-state. */
  predicate EntryOk(id: nat, t: F.Tally, es: seq<MemberReceipt>, i: nat)
    requires i < |es|
  {
    && es[i].auth.sequence == id
    && es[i].auth.generation == i + 1
    && es[i].before + |es| == t.generated + i
    && (i > 0 ==> es[i].pre == es[i - 1].post)
  }

  ghost predicate LogOk(num: E.Numerics, rs: set<ExecutionRequest>, id: nat, s: F.Sequence,
                        es: seq<MemberReceipt>) {
    && s.tally.generation == |es| + 1
    && (s.tally.digestEstablished <==> es != [])
    && (es != [] ==> es[|es| - 1].post == s.tally.digest)
    && (forall i | 0 <= i < |es| :: EntryOk(id, s.tally, es, i))
    && (forall i | 0 <= i < |es| :: Lawful(num, rs, s.kv.id, es[i].before, es[i].pre, es[i].post, es[i].token))
  }

  ghost predicate LogsOk(num: E.Numerics, rs: set<ExecutionRequest>, f: F.FabricState,
                         log: map<nat, seq<MemberReceipt>>) {
    && log.Keys <= f.seqs.Keys
    && (forall id | id in f.seqs :: LogOk(num, rs, id, f.seqs[id], Entries(log, id)))
  }

  lemma LogsStay(num: E.Numerics, rs: set<ExecutionRequest>, f: F.FabricState, f': F.FabricState,
                 log: map<nat, seq<MemberReceipt>>)
    requires LogsOk(num, rs, f, log) && FI.Steady(f, f') && O.Blank(f, f')
    ensures LogsOk(num, rs, f', log)
  {
    forall id | id in f'.seqs
      ensures LogOk(num, rs, id, f'.seqs[id], Entries(log, id))
    {
      if id in f.seqs {
        assert FI.SeqStep(f.next.dispatch, f.seqs[id], f'.seqs[id]);
        assert LogOk(num, rs, id, f.seqs[id], Entries(log, id));
      }
    }
  }

  lemma LogsGrow(num: E.Numerics, rs: set<ExecutionRequest>, rs': set<ExecutionRequest>, f: F.FabricState,
                 log: map<nat, seq<MemberReceipt>>)
    requires LogsOk(num, rs, f, log) && rs <= rs'
    ensures LogsOk(num, rs', f, log)
  {
    forall id | id in f.seqs ensures LogOk(num, rs', id, f.seqs[id], Entries(log, id)) {
      var es := Entries(log, id);
      assert LogOk(num, rs, id, f.seqs[id], es);
      forall i | 0 <= i < |es|
        ensures Lawful(num, rs', f.seqs[id].kv.id, es[i].before, es[i].pre, es[i].post, es[i].token) {
        LawfulStays(num, rs, rs', f.seqs[id].kv.id, es[i].before, es[i].pre, es[i].post, es[i].token);
      }
    }
  }

  // ---------------------------------------------------------------------------
  // The whole system

  ghost predicate NetInv(cfg: F.Config, num: E.Numerics, n: Net) {
    && FI.Inv(cfg, n.fabric)
    && MailOk(num, n.fabric, n.mail)
    && (forall e | e in n.executors :: ExecutorOk(num, n.fabric, n.mail, n.executors[e]))
    && LogsOk(num, n.mail.requests, n.fabric, n.log)
  }

  /** A coordinator operation that sends nothing and finalises nothing. */
  lemma QuietKeeps(cfg: F.Config, num: E.Numerics, n: Net, f': F.FabricState)
    requires NetInv(cfg, num, n) && FI.Inv(cfg, f') && FI.Steady(n.fabric, f') && O.Blank(n.fabric, f')
    ensures NetInv(cfg, num, n.(fabric := f'))
  {
    MailStays(num, n.fabric, f', n.mail);
    LogsStay(num, n.mail.requests, n.fabric, f', n.log);
    forall e | e in n.executors
      ensures ExecutorOk(num, f', n.mail, n.executors[e])
    {
      ExecutorStays(num, n.fabric, f', n.mail, n.mail, n.executors[e]);
    }
  }
}
