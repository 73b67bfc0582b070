/**
 One group driven from prepare to receipts: every member gains exactly one token on both
 sides. Each phase is a loop over the members of the group, so each phase has a lemma about
 its first members and a lemma about the next one: preparing, authorising, committing and
 finalising.
 */
module PumpGroup {
  import opened Types
  import opened Lifecycle
  import opened Pump
  import F = Fabric
  import FI = FabricInvariants
  import FS = FabricSteps
  import E = Executor
  import ER = ExecutorRuns

  // ---------------------------------------------------------------------------
  // Agreement between the two sides

  /** The transition has the key of the generation its sequence accepted last. */
  predicate Clashes(cfg: F.Config, t: F.Tally, a: Authority, pos: nat) {
    t.accepted.Some? && t.accepted.value.key == cfg.acceptKey(a, pos)
  }

  /** Nothing is staged, the executor is not ahead, and it agrees with the coordinator on any finalised state. */
  predicate Agrees(num: E.Numerics, t: F.Tally, e: E.ExecutorState, sid: nat) {
    && (sid in e.states ==> e.states[sid].tentative.None? && e.states[sid].tokens <= t.generated)
    && (t.digestEstablished ==>
          && sid in e.states && e.states[sid].tokens == t.generated
          && E.CommittedDigest(num, e.states[sid]) == t.digest)
  }

  predicate InSync(num: E.Numerics, s: F.Sequence, e: E.ExecutorState) {
    s.pending.None? && Agrees(num, s.tally, e, s.kv.id)
  }

  /** No two sequences share an executor state. */
  ghost predicate OwnStates(f: F.FabricState) {
    forall i, j | i in f.seqs && j in f.seqs && i != j :: f.seqs[i].kv.id != f.seqs[j].kv.id
  }

  /** Grant ids still to be issued are unknown to the executor. */
  ghost predicate GrantsFresh(f: F.FabricState, e: E.ExecutorState) {
    forall g | g in e.receipts :: g < f.next.grant
  }

  /** Proposals still to be made are unspent. */
  ghost predicate ProposalsFresh(e: E.ExecutorState) {
    forall p | p in e.consumed :: p <= e.nextProposal
  }

  ghost predicate Synced(cfg: F.Config, num: E.Numerics, p: Pair) {
    && FI.Inv(cfg, p.fabric) && OwnStates(p.fabric)
    && GrantsFresh(p.fabric, p.executor) && ProposalsFresh(p.executor)
    && (forall id | id in p.fabric.seqs :: InSync(num, p.fabric.seqs[id], p.executor))
  }

  // ---------------------------------------------------------------------------
  // Requests that are about to be driven

  /** The member describes its sequence as it stands, out on this very dispatch. */
  predicate OutOn(f: F.FabricState, req: ExecutionRequest, m: MemberSpec) {
    && m.sequence in f.seqs
    && var s := f.seqs[m.sequence];
    && m == F.SpecOf(m.sequence, s)
    && s.flight.dispatch == req.dispatch && s.flight.generation == s.tally.generation
    && !Terminal(s.state) && !s.state.CancelRequested? && !s.tally.budget.Exhausted()
  }

  ghost predicate Drivable(f: F.FabricState, req: ExecutionRequest) {
    && req.dispatch != NULL && req.epoch == f.epoch
    && (req.worker in f.boots ==> f.boots[req.worker] == req.workerBoot)
    && (forall i | 0 <= i < |req.members| :: OutOn(f, req, req.members[i]))
    && (forall i, j | 0 <= i < j < |req.members| :: req.members[i].sequence != req.members[j].sequence)
  }

  // ---------------------------------------------------------------------------
  // Prepare

  /** The member is staged on the executor exactly as its report says, on top of what the coordinator holds. */
  predicate StagedFor(num: E.Numerics, e: E.ExecutorState, req: ExecutionRequest, t: F.Tally, m: MemberSpec,
                      pm: PreparedMember) {
    && m.state.id in e.states && e.states[m.state.id].tentative.Some?
    && var st := e.states[m.state.id];
    && var x := st.tentative.value;
    && x.proposal == pm.proposal && x.auth == pm.auth == E.AuthorityOf(req, m) && x.pre == pm.pre && x.post == pm.post
    && st.tokens == pm.before == t.generated
    && (t.digestEstablished ==> pm.pre == t.digest)
    && Succeeded(pm.outcome.kind) && pm.outcome.sequence == m.sequence
    && x.pre == E.CommittedDigest(num, st) && x.post == num.digest(x.vec, st.tokens + 1, x.kv)
  }

  predicate SameState(e: E.ExecutorState, e': E.ExecutorState, sid: nat) {
    (sid in e.states <==> sid in e'.states) && (sid in e.states ==> e'.states[sid] == e.states[sid])
  }

  lemma PrepareOne(num: E.Numerics, e: E.ExecutorState, req: ExecutionRequest, t: F.Tally, m: MemberSpec, ns: int)
    requires Agrees(num, t, e, m.state.id) && m.generatedTokens == t.generated
    ensures var (e', r) := E.PrepareMember(num, e, req, m, ns);
      && r.Ok? && StagedFor(num, e', req, t, m, r.value)
      && e'.receipts == e.receipts && e'.consumed == e.consumed
        && (forall sid | sid != m.state.id :: SameState(e, e', sid))
      && e'.nextProposal == e.nextProposal + 1 == r.value.proposal
  {
    var st := if m.state.id in e.states then e.states[m.state.id] else E.Initial(num, m);
    ER.CatchUpReaches(num, st, m.generatedTokens);
  }

  /** `sid` is not the state of any of the first `k` members. */
  predicate Aside(req: ExecutionRequest, k: nat, sid: nat)
    requires k <= |req.members|
  {
    forall i | 0 <= i < k :: req.members[i].state.id != sid
  }

  /** `id` is not one of the first `k` members. */
  predicate Apart(req: ExecutionRequest, k: nat, id: nat)
    requires k <= |req.members|
  {
    forall i | 0 <= i < k :: req.members[i].sequence != id
  }

  lemma StatesDiffer(f: F.FabricState, req: ExecutionRequest, i: nat, j: nat)
    requires OwnStates(f) && Drivable(f, req) && i < |req.members| && j < |req.members| && i != j
    ensures req.members[i].sequence != req.members[j].sequence && req.members[i].state.id != req.members[j].state.id
  {
    assert OutOn(f, req, req.members[i]) && OutOn(f, req, req.members[j]);
    if j < i {
      assert req.members[j].sequence != req.members[i].sequence;
    }
  }

  ghost predicate StagedUpTo(num: E.Numerics, f: F.FabricState, req: ExecutionRequest, e: E.ExecutorState,
                             done: seq<PreparedMember>, k: nat)
    requires Drivable(f, req) && k <= |req.members| && k <= |done|
  {
    forall i | 0 <= i < k ::
      OutOn(f, req, req.members[i])
        && StagedFor(num, e, req, f.seqs[req.members[i].sequence].tally, req.members[i], done[i])
  }

  /** What the first `k` prepares leave behind. */
  ghost predicate PreparedUpTo(num: E.Numerics, f: F.FabricState, e: E.ExecutorState, e': E.ExecutorState,
                               req: ExecutionRequest, done: seq<PreparedMember>, k: nat)
    requires Drivable(f, req) && k <= |req.members|
  {
    && |done| == k && StagedUpTo(num, f, req, e', done, k) && e'.receipts == e.receipts && e'.consumed == e.consumed
    && e'.nextProposal == e.nextProposal + k && (forall i | 0 <= i < k :: done[i].proposal == e.nextProposal + i + 1)
    && (forall sid | Aside(req, k, sid) :: SameState(e, e', sid))
  }

  lemma PrepareNext(num: E.Numerics, f: F.FabricState, e: E.ExecutorState, e1: E.ExecutorState, req: ExecutionRequest,
                    done: seq<PreparedMember>, ns: int, k: nat)
    requires OwnStates(f) && Drivable(f, req) && 0 < k <= |req.members| && PreparedUpTo(num, f, e, e1, req, done, k - 1)
    requires OutOn(f, req, req.members[k - 1])
    requires Agrees(num, f.seqs[req.members[k - 1].sequence].tally, e, req.members[k - 1].state.id)
    ensures var (e2, r) := E.PrepareMember(num, e1, req, req.members[k - 1], ns);
      r.Ok? && PreparedUpTo(num, f, e, e2, req, done + [r.value], k)
  {
    var m := req.members[k - 1];
    assert Aside(req, k - 1, m.state.id) by {
      forall i | 0 <= i < k - 1 ensures req.members[i].state.id != m.state.id {
        StatesDiffer(f, req, i, k - 1);
      }
    }
    assert SameState(e, e1, m.state.id);
    PrepareOne(num, e1, req, f.seqs[m.sequence].tally, m, ns);
    var (e2, r) := E.PrepareMember(num, e1, req, m, ns);
    forall i | 0 <= i < k
      ensures OutOn(f, req, req.members[i])
      ensures StagedFor(num, e2, req, f.seqs[req.members[i].sequence].tally, req.members[i], (done + [r.value])[i])
    {
      if i < k - 1 {
        assert SameState(e1, e2, req.members[i].state.id);
        assert StagedFor(num, e1, req, f.seqs[req.members[i].sequence].tally, req.members[i], done[i]);
      }
    }
    forall sid | Aside(req, k, sid) ensures SameState(e, e2, sid) {
      assert m.state.id != sid && Aside(req, k - 1, sid);
      assert SameState(e, e1, sid) && SameState(e1, e2, sid);
    }
  }

  lemma {:induction false} PreparePhase(num: E.Numerics, f: F.FabricState, e: E.ExecutorState, req: ExecutionRequest,
                                        ns: MemberSpec -> int, k: nat)
    requires OwnStates(f) && Drivable(f, req) && k <= |req.members|
    requires forall i | 0 <= i < |req.members| ::
      OutOn(f, req, req.members[i]) && Agrees(num, f.seqs[req.members[i].sequence].tally, e, req.members[i].state.id)
    ensures var (e', r) := E.PrepareUpTo(num, e, req, k, ns); r.Ok? && PreparedUpTo(num, f, e, e', req, r.value, k)
  {
    if k > 0 {
      PreparePhase(num, f, e, req, ns, k - 1);
      var (e1, done) := E.PrepareUpTo(num, e, req, k - 1, ns);
      PrepareNext(num, f, e, e1, req, done.value, ns(req.members[k - 1]), k);
    }
  }

  // ---------------------------------------------------------------------------
  // Authorise

  /** Put back as it was, with nothing in flight. */
  predicate Held(s: F.Sequence, t: F.Sequence) {
    && t.tally == s.tally && t.kv == s.kv && t.req == s.req && t.attempt == s.attempt && t.pending.None?
  }

  /** Member `i` has a new grant, and nothing else about its sequence changed. */
  predicate GrantedAt(f: F.FabricState, f': F.FabricState, pd: PreparedDecode, out: seq<F.Reply>, i: nat)
    requires i < |pd.members| && i < |out|
  {
    && out[i].SendGrant?
    && var pm, g := pd.members[i], out[i].grant.grant;
    && out[i].grant == F.GrantFor(g, pd, pm) && f.next.grant <= g < f'.next.grant
    && pm.auth.sequence in f.seqs && pm.auth.sequence in f'.seqs && g in f'.ledger
    && f'.seqs[pm.auth.sequence] == f.seqs[pm.auth.sequence].(pending := Some(F.Pending(g, pm.proposal)))
    && f'.ledger[g] == F.GrantRecord(F.GrantFor(g, pd, pm), F.GRANT_PENDING, None)
  }

  /** Member `i` is refused and put back. */
  predicate RefusedAt(f: F.FabricState, f': F.FabricState, pd: PreparedDecode, out: seq<F.Reply>, i: nat)
    requires i < |pd.members| && i < |out|
  {
    var pm := pd.members[i];
    && out[i] == F.SendAbort(AbortPrepared(pm.proposal, pm.auth), true)
    && pm.auth.sequence in f.seqs && pm.auth.sequence in f'.seqs
    && Held(f.seqs[pm.auth.sequence], f'.seqs[pm.auth.sequence])
  }

  /** Member `i` is granted, unless its key clashes. */
  predicate AnsweredAt(cfg: F.Config, f: F.FabricState, f': F.FabricState, pd: PreparedDecode, out: seq<F.Reply>,
                       i: nat)
    requires i < |pd.members| && i < |out|
  {
    && pd.members[i].auth.sequence in f.seqs
    && var pm := pd.members[i];
    if Clashes(cfg, f.seqs[pm.auth.sequence].tally, pm.auth, pm.before)
    then RefusedAt(f, f', pd, out, i) else GrantedAt(f, f', pd, out, i)
  }

  ghost predicate AnsweredUpTo(cfg: F.Config, f: F.FabricState, f': F.FabricState, req: ExecutionRequest,
                               pd: PreparedDecode, out: seq<F.Reply>, k: nat)
    requires k <= |req.members| == |pd.members|
  {
    && |out| == k && f'.seqs.Keys == f.seqs.Keys && f'.next == f.next.(grant := f'.next.grant)
    && f.next.grant <= f'.next.grant && f'.epoch == f.epoch && f'.boots == f.boots && f'.workers == f.workers
    && (forall i | 0 <= i < k :: AnsweredAt(cfg, f, f', pd, out, i))
    && (forall i, j | 0 <= i < j < k && out[i].SendGrant? && out[j].SendGrant? ::
      out[i].grant.grant < out[j].grant.grant)
    && (forall id | id in f.seqs && Apart(req, k, id) :: f'.seqs[id] == f.seqs[id])
  }

  /** Nothing but its key stands in the way of a grant for this sequence. */
  predicate Ripe(f: F.FabricState, id: nat) {
    id in f.seqs && f.seqs[id].pending.None?
  }

  lemma RipeMembers(cfg: F.Config, num: E.Numerics, p: Pair, req: ExecutionRequest)
    requires Synced(cfg, num, p) && Drivable(p.fabric, req)
    ensures forall i | 0 <= i < |req.members| :: Ripe(p.fabric, req.members[i].sequence)
  {
    forall i | 0 <= i < |req.members| ensures Ripe(p.fabric, req.members[i].sequence) {
      assert OutOn(p.fabric, req, req.members[i]);
      assert InSync(num, p.fabric.seqs[req.members[i].sequence], p.executor);
    }
  }

  /** A member staged for its sequence passes every check but perhaps that of its key. */
  lemma Authorises(cfg: F.Config, num: E.Numerics, f: F.FabricState, e: E.ExecutorState, req: ExecutionRequest,
                   m: MemberSpec, pm: PreparedMember)
    requires OutOn(f, req, m) && Ripe(f, m.sequence)
    requires req.dispatch != NULL && req.epoch == f.epoch
      && (req.worker in f.boots ==> f.boots[req.worker] == req.workerBoot)
    requires StagedFor(num, e, req, f.seqs[m.sequence].tally, m, pm)
    ensures F.Current(f, pm) && Succeeded(pm.outcome.kind) && FS.Honest(pm) && pm.auth.sequence == m.sequence
    ensures F.Extends(cfg, f, pm) <==> !Clashes(cfg, f.seqs[m.sequence].tally, pm.auth, pm.before)
  {
  }

  /** What the answer to one member changes. */
  predicate Answered(f: F.FabricState, f': F.FabricState, id: nat) {
    && id in f.seqs && f'.seqs.Keys == f.seqs.Keys && f'.next == f.next.(grant := f'.next.grant)
    && f.next.grant <= f'.next.grant && f'.epoch == f.epoch && f'.boots == f.boots && f'.workers == f.workers
    && (forall k | k in f.seqs && k != id :: f'.seqs[k] == f.seqs[k])
    && (forall g | g in f.ledger && g < f.next.grant :: g in f'.ledger && f'.ledger[g] == f.ledger[g])
  }

  lemma GrantOne(cfg: F.Config, f: F.FabricState, pd: PreparedDecode, pm: PreparedMember)
    requires F.Authorised(cfg, f, pm)
    ensures var (f', reply) := F.AuthoriseMember(cfg, f, pd, pm);
      && Answered(f, f', pm.auth.sequence) && f'.next.grant == f.next.grant + 1
      && reply == F.SendGrant(F.GrantFor(f.next.grant, pd, pm)) && f.next.grant in f'.ledger
      && f'.seqs[pm.auth.sequence] == f.seqs[pm.auth.sequence].(pending := Some(F.Pending(f.next.grant, pm.proposal)))
      && f'.ledger[f.next.grant] == F.GrantRecord(F.GrantFor(f.next.grant, pd, pm), F.GRANT_PENDING, None)
  {
  }

  lemma RefuseOne(cfg: F.Config, f: F.FabricState, pd: PreparedDecode, pm: PreparedMember)
    requires F.Current(f, pm) && Succeeded(pm.outcome.kind) && !F.Extends(cfg, f, pm)
    ensures var (f', reply) := F.AuthoriseMember(cfg, f, pd, pm);
      && Answered(f, f', pm.auth.sequence) && f'.next.grant == f.next.grant
      && reply == F.SendAbort(AbortPrepared(pm.proposal, pm.auth), true)
      && Held(f.seqs[pm.auth.sequence], f'.seqs[pm.auth.sequence])
  {
  }

  lemma AnswerStays(cfg: F.Config, f: F.FabricState, f1: F.FabricState, f2: F.FabricState, pd: PreparedDecode,
                    out: seq<F.Reply>, reply: F.Reply, id: nat, i: nat)
    requires i < |pd.members| && i < |out| && AnsweredAt(cfg, f, f1, pd, out, i)
    requires Answered(f1, f2, id) && pd.members[i].auth.sequence != id
    ensures AnsweredAt(cfg, f, f2, pd, out + [reply], i)
  {
  }

  /** The next member is answered at the state all earlier ones have left. */
  lemma AnswerOne(cfg: F.Config, num: E.Numerics, f: F.FabricState, f1: F.FabricState, e: E.ExecutorState,
                  req: ExecutionRequest, pd: PreparedDecode, out: seq<F.Reply>, k: nat)
    returns (f2: F.FabricState, reply: F.Reply)
    requires Drivable(f, req) && 0 < k <= |req.members| == |pd.members| && |out| == k - 1
    requires OutOn(f, req, req.members[k - 1]) && Ripe(f, req.members[k - 1].sequence)
    requires StagedFor(num, e, req, f.seqs[req.members[k - 1].sequence].tally, req.members[k - 1], pd.members[k - 1])
    requires f1.epoch == f.epoch && f1.boots == f.boots && f.next.grant <= f1.next.grant
    requires req.members[k - 1].sequence in f1.seqs
      && f1.seqs[req.members[k - 1].sequence] == f.seqs[req.members[k - 1].sequence]
    ensures F.AuthoriseMember(cfg, f1, pd, pd.members[k - 1]) == (f2, reply)
    ensures Answered(f1, f2, req.members[k - 1].sequence) && AnsweredAt(cfg, f, f2, pd, out + [reply], k - 1)
    ensures reply.SendGrant? ==> reply.grant.grant == f1.next.grant
  {
    var m, pm := req.members[k - 1], pd.members[k - 1];
    Authorises(cfg, num, f1, e, req, m, pm);
    f2, reply := F.AuthoriseMember(cfg, f1, pd, pm).0, F.AuthoriseMember(cfg, f1, pd, pm).1;
    if F.Extends(cfg, f1, pm) {
      GrantOne(cfg, f1, pd, pm);
    } else {
      RefuseOne(cfg, f1, pd, pm);
    }
  }

  lemma AnswersNext(cfg: F.Config, f: F.FabricState, f1: F.FabricState, f2: F.FabricState, req: ExecutionRequest,
                    pd: PreparedDecode, out: seq<F.Reply>, reply: F.Reply, k: nat)
    requires 0 < k <= |req.members| == |pd.members| && AnsweredUpTo(cfg, f, f1, req, pd, out, k - 1)
    requires Answered(f1, f2, req.members[k - 1].sequence) && AnsweredAt(cfg, f, f2, pd, out + [reply], k - 1)
    requires reply.SendGrant? ==> reply.grant.grant == f1.next.grant
    requires Apart(req, k - 1, req.members[k - 1].sequence)
    requires forall i | 0 <= i < k :: pd.members[i].auth.sequence == req.members[i].sequence
    ensures AnsweredUpTo(cfg, f, f2, req, pd, out + [reply], k)
  {
    forall i | 0 <= i < k ensures AnsweredAt(cfg, f, f2, pd, out + [reply], i) {
      if i < k - 1 {
        assert req.members[i].sequence != req.members[k - 1].sequence;
        AnswerStays(cfg, f, f1, f2, pd, out, reply, req.members[k - 1].sequence, i);
      }
    }
    forall i | 0 <= i < k - 1 && out[i].SendGrant? ensures out[i].grant.grant < f1.next.grant {
      assert AnsweredAt(cfg, f, f1, pd, out, i);
    }
    forall id | id in f.seqs && Apart(req, k, id) ensures f2.seqs[id] == f.seqs[id] {
      assert req.members[k - 1].sequence != id && Apart(req, k - 1, id);
    }
  }

  lemma ApartBefore(f: F.FabricState, req: ExecutionRequest, k: nat)
    requires OwnStates(f) && Drivable(f, req) && 0 < k <= |req.members|
    ensures Apart(req, k - 1, req.members[k - 1].sequence)
  {
    forall i | 0 <= i < k - 1 ensures req.members[i].sequence != req.members[k - 1].sequence {
      StatesDiffer(f, req, i, k - 1);
    }
  }

  lemma StagedSequences(num: E.Numerics, f: F.FabricState, req: ExecutionRequest, e: E.ExecutorState,
                        pd: PreparedDecode)
    requires Drivable(f, req) && |pd.members| == |req.members| && StagedUpTo(num, f, req, e, pd.members, |req.members|)
    ensures forall i | 0 <= i < |req.members| :: pd.members[i].auth.sequence == req.members[i].sequence
  {
    forall i | 0 <= i < |req.members| ensures pd.members[i].auth.sequence == req.members[i].sequence {
      assert StagedFor(num, e, req, f.seqs[req.members[i].sequence].tally, req.members[i], pd.members[i]);
    }
  }

  lemma {:induction false} AuthorisePhase(cfg: F.Config, num: E.Numerics, f: F.FabricState, e: E.ExecutorState,
                                          req: ExecutionRequest, pd: PreparedDecode, k: nat)
    returns (f': F.FabricState, out: seq<F.Reply>)
    requires OwnStates(f) && Drivable(f, req) && k <= |req.members| == |pd.members|
    requires forall i | 0 <= i < |req.members| :: Ripe(f, req.members[i].sequence)
    requires StagedUpTo(num, f, req, e, pd.members, |req.members|)
    ensures F.Authorise(cfg, f, pd, k) == (f', out) && AnsweredUpTo(cfg, f, f', req, pd, out, k)
  {
    if k == 0 {
      f', out := f, [];
    } else {
      var f1, some := AuthorisePhase(cfg, num, f, e, req, pd, k - 1);
      ApartBefore(f, req, k);
      StagedSequences(num, f, req, e, pd);
      assert OutOn(f, req, req.members[k - 1]);
      var f2, reply := AnswerOne(cfg, num, f, f1, e, req, pd, some, k);
      AnswersNext(cfg, f, f1, f2, req, pd, some, reply, k);
      f', out := f2, some + [reply];
    }
  }

  lemma {:induction false} AuthoriseInv(cfg: F.Config, f: F.FabricState, pd: PreparedDecode, k: nat)
    requires FI.Inv(cfg, f) && k <= |pd.members| && forall pm | pm in pd.members :: FS.Honest(pm)
    ensures FI.Inv(cfg, F.Authorise(cfg, f, pd, k).0)
  {
    if k > 0 {
      AuthoriseInv(cfg, f, pd, k - 1);
      FS.AuthoriseMemberKeeps(cfg, F.Authorise(cfg, f, pd, k - 1).0, pd, pd.members[k - 1]);
    }
  }

  // ---------------------------------------------------------------------------
  // Commit

  function StateOf(r: F.Reply): nat {
    if r.SendGrant? then r.grant.auth.state else r.abort.auth.state
  }

  function ProposalOf(r: F.Reply): nat {
    if r.SendGrant? then r.grant.proposal else r.abort.proposal
  }

  /** The reply decides what is staged: a grant that matches it, or an abort that names it. */
  predicate Due(e: E.ExecutorState, r: F.Reply) {
    match r
    case SendGrant(g) => E.Promotes(e, g)
    case SendAbort(a, _) =>
      && a.auth.state in e.states && e.states[a.auth.state].tentative.Some?
      && e.states[a.auth.state].tentative.value.proposal == a.proposal && a.proposal !in e.consumed
  }

  predicate Differ(r: F.Reply, q: F.Reply) {
    && StateOf(r) != StateOf(q) && ProposalOf(r) != ProposalOf(q)
    && (r.SendGrant? && q.SendGrant? ==> r.grant.grant != q.grant.grant)
  }

  /** Each reply decides a state of its own. */
  ghost predicate Settleable(e: E.ExecutorState, rs: seq<F.Reply>) {
    && (forall i | 0 <= i < |rs| :: Due(e, rs[i]))
    && (forall i, j | 0 <= i < j < |rs| :: Differ(rs[i], rs[j]))
  }

  predicate Beside(rs: seq<F.Reply>, k: nat, sid: nat)
    requires k <= |rs|
  {
    forall i | 0 <= i < k :: StateOf(rs[i]) != sid
  }

  /** What a reply makes of the state it decides. */
  function Outcome(st: E.SeqState, r: F.Reply): E.SeqState
    requires st.tentative.Some?
  {
    if r.SendGrant? then E.Promote(st) else st.(tentative := None)
  }

  function ReceiptOn(g: CommitGrant, now: int): MemberReceipt {
    E.ReceiptFor(g).(committedAt := now)
  }

  /** The receipts of the granted members, in order. */
  function ReceiptsOf(rs: seq<F.Reply>, now: int): seq<MemberReceipt> {
    if rs == [] then [] else
      ReceiptsOf(rs[..|rs| - 1], now) + if rs[|rs| - 1].SendGrant? then [ReceiptOn(rs[|rs| - 1].grant, now)] else []
  }

  predicate DecidedAt(e: E.ExecutorState, e': E.ExecutorState, r: F.Reply) {
    && StateOf(r) in e.states && e.states[StateOf(r)].tentative.Some? && StateOf(r) in e'.states
    && e'.states[StateOf(r)] == Outcome(e.states[StateOf(r)], r)
  }

  ghost predicate SettledUpTo(e: E.ExecutorState, e': E.ExecutorState, rs: seq<F.Reply>, k: nat)
    requires k <= |rs|
  {
    && e'.nextProposal == e.nextProposal
    && (forall i | 0 <= i < k :: DecidedAt(e, e', rs[i]))
    && (forall sid | Beside(rs, k, sid) :: SameState(e, e', sid))
    && (forall g | g in e'.receipts ::
      g in e.receipts || exists i | 0 <= i < k :: rs[i].SendGrant? && rs[i].grant.grant == g)
    && (forall p | p in e'.consumed :: p in e.consumed || exists i | 0 <= i < k :: ProposalOf(rs[i]) == p)
  }

  /** One reply, at an executor that still has what it decides. */
  lemma SettleOne(e: E.ExecutorState, r: F.Reply, now: int) returns (e': E.ExecutorState)
    requires Due(e, r)
    ensures Settle(e, [r], now) == (e', ReceiptsOf([r], now)) && DecidedAt(e, e', r)
      && e'.nextProposal == e.nextProposal
    ensures forall sid | sid != StateOf(r) :: SameState(e, e', sid)
    ensures forall g | g in e'.receipts :: g in e.receipts || (r.SendGrant? && g == r.grant.grant)
    ensures forall p | p in e'.consumed :: p in e.consumed || p == ProposalOf(r)
  {
    assert [r][..0] == [];
    assert Settle(e, [], now) == (e, []) && ReceiptsOf([], now) == [];
    e' := Settle(e, [r], now).0;
    if r.SendGrant? {
      assert [] + [ReceiptOn(r.grant, now)] == [ReceiptOn(r.grant, now)];
    } else {
      assert ReceiptsOf([r], now) == [];
    }
  }

  lemma SettleAppend(e: E.ExecutorState, rs: seq<F.Reply>, r: F.Reply, now: int)
    ensures var (e1, recs) := Settle(e, rs, now); var (e2, more) := Settle(e1, [r], now);
      Settle(e, rs + [r], now) == (e2, recs + more)
  {
    var (e1, recs) := Settle(e, rs, now);
    assert (rs + [r])[..|rs|] == rs && [r][..0] == [];
    assert Settle(e1, [], now) == (e1, []);
    assert recs + [] == recs;
    if r.SendGrant? && E.Commit(e1, r.grant).1.Ok? {
      var x := E.Commit(e1, r.grant).1.value.(committedAt := now);
      assert [] + [x] == [x];
      assert Settle(e1, [r], now).1 == [x];
    } else {
      assert Settle(e1, [r], now).1 == [];
    }
  }

  lemma DueStill(e: E.ExecutorState, e1: E.ExecutorState, rs: seq<F.Reply>, k: nat)
    requires 0 < k <= |rs| && Settleable(e, rs) && SettledUpTo(e, e1, rs, k - 1)
    ensures Due(e1, rs[k - 1])
  {
    var r := rs[k - 1];
    forall i | 0 <= i < k - 1 ensures Differ(rs[i], r) {
    }
    assert Beside(rs, k - 1, StateOf(r)) && SameState(e, e1, StateOf(r)) && Due(e, r);
  }

  lemma SettledNext(e: E.ExecutorState, e1: E.ExecutorState, e2: E.ExecutorState, rs: seq<F.Reply>, k: nat)
    requires 0 < k <= |rs| && Settleable(e, rs) && SettledUpTo(e, e1, rs, k - 1)
    requires DecidedAt(e1, e2, rs[k - 1]) && e2.nextProposal == e1.nextProposal
    requires forall sid | sid != StateOf(rs[k - 1]) :: SameState(e1, e2, sid)
    requires forall g | g in e2.receipts :: g in e1.receipts || (rs[k - 1].SendGrant? && g == rs[k - 1].grant.grant)
    requires forall p | p in e2.consumed :: p in e1.consumed || p == ProposalOf(rs[k - 1])
    ensures SettledUpTo(e, e2, rs, k)
  {
    var r := rs[k - 1];
    forall i | 0 <= i < k - 1 ensures Differ(rs[i], r) {
    }
    assert Beside(rs, k - 1, StateOf(r)) && SameState(e, e1, StateOf(r));
    forall i | 0 <= i < k ensures DecidedAt(e, e2, rs[i]) {
      if i < k - 1 {
        assert DecidedAt(e, e1, rs[i]) && SameState(e1, e2, StateOf(rs[i]));
      }
    }
    forall sid | Beside(rs, k, sid) ensures SameState(e, e2, sid) {
      assert StateOf(r) != sid && Beside(rs, k - 1, sid);
      assert SameState(e, e1, sid) && SameState(e1, e2, sid);
    }
    forall g | g in e2.receipts
      ensures g in e.receipts || exists i | 0 <= i < k :: rs[i].SendGrant? && rs[i].grant.grant == g
    {
      if g in e1.receipts && g !in e.receipts {
        var i :| 0 <= i < k - 1 && rs[i].SendGrant? && rs[i].grant.grant == g;
      }
    }
    forall p | p in e2.consumed ensures p in e.consumed || exists i | 0 <= i < k :: ProposalOf(rs[i]) == p {
      if p in e1.consumed && p !in e.consumed {
        var i :| 0 <= i < k - 1 && ProposalOf(rs[i]) == p;
      }
    }
  }

  lemma {:induction false} SettlePhase(e: E.ExecutorState, rs: seq<F.Reply>, now: int, k: nat)
    returns (e': E.ExecutorState)
    requires Settleable(e, rs) && k <= |rs|
    ensures Settle(e, rs[..k], now) == (e', ReceiptsOf(rs[..k], now)) && SettledUpTo(e, e', rs, k)
  {
    if k == 0 {
      e' := e;
    } else {
      var e1 := SettlePhase(e, rs, now, k - 1);
      DueStill(e, e1, rs, k);
      e' := SettleOne(e1, rs[k - 1], now);
      assert rs[..k] == rs[..k - 1] + [rs[k - 1]];
      SettleAppend(e, rs[..k - 1], rs[k - 1], now);
      ReceiptsAppend(rs[..k - 1], rs[k - 1], now);
      SettledNext(e, e1, e', rs, k);
    }
  }

  lemma ReceiptsAppend(rs: seq<F.Reply>, r: F.Reply, now: int)
    ensures ReceiptsOf(rs + [r], now) == ReceiptsOf(rs, now) + ReceiptsOf([r], now)
  {
    assert (rs + [r])[..|rs|] == rs && [r][..0] == [];
    assert ReceiptsOf([], now) == [];
  }

  /** Where the receipt of reply `i` is. */
  function PlaceOf(rs: seq<F.Reply>, now: int, i: nat): nat
    requires i <= |rs|
  {
    |ReceiptsOf(rs[..i], now)|
  }

  lemma {:induction false} ReceiptAt(rs: seq<F.Reply>, now: int, i: nat)
    requires i < |rs| && rs[i].SendGrant?
    ensures PlaceOf(rs, now, i) < |ReceiptsOf(rs, now)|
    ensures ReceiptsOf(rs, now)[PlaceOf(rs, now, i)] == ReceiptOn(rs[i].grant, now)
  {
    var n := |rs| - 1;
    if i < n {
      assert rs[..n][..i] == rs[..i];
      ReceiptAt(rs[..n], now, i);
    }
  }

  /** Every receipt answers a grant of its own. */
  lemma {:induction false} ReceiptFrom(rs: seq<F.Reply>, now: int, j: nat) returns (i: nat)
    requires j < |ReceiptsOf(rs, now)|
    ensures i < |rs| && rs[i].SendGrant? && PlaceOf(rs, now, i) == j
      && ReceiptsOf(rs, now)[j] == ReceiptOn(rs[i].grant, now)
  {
    var n := |rs| - 1;
    if j < |ReceiptsOf(rs[..n], now)| {
      i := ReceiptFrom(rs[..n], now, j);
      assert rs[..n][..i] == rs[..i];
    } else {
      i := n;
    }
  }

  // ---------------------------------------------------------------------------
  // Receipts

  ghost predicate AllAwaited(f: F.FabricState, recs: seq<MemberReceipt>) {
    && (forall i | 0 <= i < |recs| :: F.Finalises(f, recs[i]))
    && (forall i, j | 0 <= i < j < |recs| ::
      recs[i].auth.sequence != recs[j].auth.sequence && recs[i].grant != recs[j].grant)
  }

  predicate NoReceipt(recs: seq<MemberReceipt>, k: nat, id: nat)
    requires k <= |recs|
  {
    forall i | 0 <= i < k :: recs[i].auth.sequence != id
  }

  predicate FinalAt(cfg: F.Config, f: F.FabricState, f': F.FabricState, rec: MemberReceipt) {
    && rec.auth.sequence in f.seqs && rec.auth.sequence in f'.seqs && f.seqs[rec.auth.sequence].pending.Some?
    && f'.seqs[rec.auth.sequence] == F.Finalised(cfg, f.seqs[rec.auth.sequence], rec).(reservation := NULL)
  }

  ghost predicate FinalisedUpTo(cfg: F.Config, f: F.FabricState, f': F.FabricState, recs: seq<MemberReceipt>, k: nat)
    requires k <= |recs| && AllAwaited(f, recs)
  {
    && f'.seqs.Keys == f.seqs.Keys && f'.next == f.next && f'.epoch == f.epoch && f'.boots == f.boots
    && f'.workers == f.workers
    && (forall i | 0 <= i < k :: FinalAt(cfg, f, f', recs[i]))
    && (forall i | k <= i < |recs| :: F.Finalises(f', recs[i]))
    && (forall id | id in f.seqs && NoReceipt(recs, k, id) :: f'.seqs[id] == f.seqs[id])
  }

  lemma AwaitedStays(cfg: F.Config, f: F.FabricState, rec: MemberReceipt, other: MemberReceipt)
    requires F.Finalises(f, rec) && F.Finalises(f, other)
    requires other.auth.sequence != rec.auth.sequence && other.grant != rec.grant
    ensures F.Finalises(F.Finalise(cfg, f, rec), other)
  {
  }

  lemma FinaliseNext(cfg: F.Config, f: F.FabricState, f1: F.FabricState, recs: seq<MemberReceipt>, k: nat)
    requires 0 < k <= |recs| && AllAwaited(f, recs) && FinalisedUpTo(cfg, f, f1, recs, k - 1)
    ensures F.Finalises(f1, recs[k - 1]) && FinalisedUpTo(cfg, f, F.Finalise(cfg, f1, recs[k - 1]), recs, k)
  {
    var rec := recs[k - 1];
    assert F.Finalises(f1, rec);
    var f2 := F.Finalise(cfg, f1, rec);
    FinaliseEffect(cfg, f1, rec);
    forall i | k <= i < |recs| ensures F.Finalises(f2, recs[i]) {
      AwaitedStays(cfg, f1, rec, recs[i]);
    }
    assert NoReceipt(recs, k - 1, rec.auth.sequence);
    assert F.Finalises(f, rec);
    FinalisedOneMore(cfg, f, f1, f2, recs, k, rec.auth.sequence);
  }

  lemma FinaliseEffect(cfg: F.Config, f: F.FabricState, rec: MemberReceipt)
    requires F.Finalises(f, rec)
    ensures var f', id := F.Finalise(cfg, f, rec), rec.auth.sequence;
      && f'.next == f.next && f'.epoch == f.epoch && f'.boots == f.boots && f'.workers == f.workers
      && f'.seqs == f.seqs[id := F.Finalised(cfg, f.seqs[id], rec).(reservation := NULL)]
  {
  }

  lemma FinalStays(cfg: F.Config, f: F.FabricState, f1: F.FabricState, f2: F.FabricState, rec: MemberReceipt, id: nat)
    requires FinalAt(cfg, f, f1, rec) && rec.auth.sequence != id && f2.seqs.Keys == f1.seqs.Keys
    requires forall k | k in f1.seqs && k != id :: f2.seqs[k] == f1.seqs[k]
    ensures FinalAt(cfg, f, f2, rec)
  {
  }

  lemma FinalisedOneMore(cfg: F.Config, f: F.FabricState, f1: F.FabricState, f2: F.FabricState,
                         recs: seq<MemberReceipt>, k: nat, id: nat)
    requires 0 < k <= |recs| && AllAwaited(f, recs) && FinalisedUpTo(cfg, f, f1, recs, k - 1)
    requires id == recs[k - 1].auth.sequence && FinalAt(cfg, f, f2, recs[k - 1])
    requires f2.next == f1.next && f2.epoch == f1.epoch && f2.boots == f1.boots && f2.workers == f1.workers
    requires f2.seqs.Keys == f1.seqs.Keys && forall j | j in f1.seqs && j != id :: f2.seqs[j] == f1.seqs[j]
    requires forall i | k <= i < |recs| :: F.Finalises(f2, recs[i])
    ensures FinalisedUpTo(cfg, f, f2, recs, k)
  {
    forall i | 0 <= i < k ensures FinalAt(cfg, f, f2, recs[i]) {
      if i < k - 1 {
        FinalStays(cfg, f, f1, f2, recs[i], id);
      }
    }
    forall j | j in f.seqs && NoReceipt(recs, k, j) ensures f2.seqs[j] == f.seqs[j] {
      assert recs[k - 1].auth.sequence != j && NoReceipt(recs, k - 1, j);
    }
  }

  lemma {:induction false} ReceivePhase(cfg: F.Config, f: F.FabricState, recs: seq<MemberReceipt>, k: nat)
    requires AllAwaited(f, recs) && k <= |recs|
    ensures FinalisedUpTo(cfg, f, F.Receive(cfg, f, recs[..k]).0, recs, k)
  {
    if k > 0 {
      ReceivePhase(cfg, f, recs, k - 1);
      assert recs[..k][..k - 1] == recs[..k - 1];
      FinaliseNext(cfg, f, F.Receive(cfg, f, recs[..k - 1]).0, recs, k);
    }
  }

  lemma {:induction false} ReceiveInv(cfg: F.Config, f: F.FabricState, recs: seq<MemberReceipt>)
    requires FI.Inv(cfg, f)
    ensures FI.Inv(cfg, F.Receive(cfg, f, recs).0)
  {
    if recs != [] {
      ReceiveInv(cfg, f, recs[..|recs| - 1]);
      var f1 := F.Receive(cfg, f, recs[..|recs| - 1]).0;
      if F.Finalises(f1, recs[|recs| - 1]) {
        FS.FinaliseKeeps(cfg, f1, recs[|recs| - 1]);
      }
    }
  }
}
