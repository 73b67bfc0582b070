/** What an executor answers to each call, in terms of the fields it looks at. */
module Replies {
  import opened Types
  import opened Executor

  /** The tokens a member is prepared from: what was committed here, or what the coordinator counts if that is more. */
  function Standing(e: ExecutorState, m: MemberSpec): nat {
    var here := if m.state.id in e.states then e.states[m.state.id].tokens else 0;
    if here < m.generatedTokens then m.generatedTokens else here
  }

  /** A step of the same attempt is prepared and unresolved. */
  predicate Unresolved(e: ExecutorState, m: MemberSpec) {
    && m.state.id in e.states && e.states[m.state.id].tentative.Some?
    && e.states[m.state.id].tentative.value.auth.attempt == m.attempt
  }

  /** Nothing but the state of `sid` may differ. */
  predicate Beside(e: ExecutorState, e': ExecutorState, sid: nat) {
    && e'.receipts == e.receipts && e'.consumed == e.consumed && sid in e'.states
    && e'.states == e.states[sid := e'.states[sid]]
  }

  lemma {:induction false} CatchUpReaches(num: Numerics, st: SeqState, target: nat)
    ensures var r := CatchUp(num, st, target);
      r.tokens == (if st.tokens < target then target else st.tokens) && r.tentative == st.tentative
    decreases target - st.tokens
  {
    if st.tokens < target {
      CatchUpReaches(num, Advance(num, st), target);
    }
  }

  lemma AdoptReaches(num: Numerics, e: ExecutorState, m: MemberSpec)
    ensures var st := Adopt(num, e, m);
      && st.tokens == Standing(e, m)
      && st.tentative == if m.state.id in e.states then e.states[m.state.id].tentative else None
  {
    CatchUpReaches(num, if m.state.id in e.states then e.states[m.state.id] else Initial(num, m), m.generatedTokens);
  }

  /**
   A prepare is refused if and only if a step of the same attempt is unresolved: as a duplicate
   if it is of the same generation, as a conflict otherwise. What is unresolved stays.
   */
  lemma RefusedExactly(num: Numerics, e: ExecutorState, req: ExecutionRequest, m: MemberSpec, ns: int)
    ensures var (e', r) := PrepareMember(num, e, req, m, ns);
      && Beside(e, e', m.state.id) && e'.states[m.state.id].tokens == Standing(e, m)
      && (r.Err? <==> Unresolved(e, m))
      && (r.Err? ==>
            var t := e.states[m.state.id].tentative;
            && r.error == (if t.value.auth.generation == m.generation then 65 else 74)
            && e'.states[m.state.id].tentative == t && e'.nextProposal == e.nextProposal)
  {
    AdoptReaches(num, e, m);
  }

  /** What is reported is what is staged, under a new proposal and the authority of the request. */
  lemma PreparedTells(num: Numerics, e: ExecutorState, req: ExecutionRequest, m: MemberSpec, ns: int)
    requires !Unresolved(e, m)
    ensures var (e', r) := PrepareMember(num, e, req, m, ns);
      && r.Ok? && m.state.id in e'.states && e'.states[m.state.id].tentative.Some?
      && var t, pm := e'.states[m.state.id].tentative.value, r.value;
      && t.proposal == pm.proposal == e'.nextProposal == e.nextProposal + 1
      && t.auth == pm.auth && t.pre == pm.pre && t.post == pm.post && pm.delta == num.mix(pm.pre, pm.post)
      && pm.auth.epoch == req.epoch && pm.auth.worker == req.worker && pm.auth.workerBoot == req.workerBoot
      && pm.auth.dispatch == req.dispatch && pm.auth.sequence == m.sequence && pm.auth.state == m.state.id
      && pm.auth.attempt == m.attempt && pm.auth.generation == m.generation
      && pm.before == Standing(e, m) && pm.after == pm.before + 1 && pm.activeNs == ns
      && pm.outcome.sequence == m.sequence && pm.outcome.attempt == m.attempt
      && pm.outcome.generation == m.generation && pm.outcome.generated == 1 && pm.outcome.token == num.token(t.vec)
      && pm.outcome.errorCode == 0 && !pm.outcome.retryable && pm.outcome.kvDelta == 64 && pm.outcome.kvAfter == t.kv
  {
    AdoptReaches(num, e, m);
  }

  /** What becomes of member `i` after the members before it. */
  function Turn(num: Numerics, e: ExecutorState, req: ExecutionRequest, ns: MemberSpec -> int, i: nat)
    : (ExecutorState, Result<PreparedMember>)
    requires i < |req.members|
  {
    PrepareMember(num, PrepareUpTo(num, e, req, i, ns).0, req, req.members[i], ns(req.members[i]))
  }

  lemma {:induction false} AllPrepared(num: Numerics, e: ExecutorState, req: ExecutionRequest, n: nat,
                                       ns: MemberSpec -> int)
    requires n <= |req.members| && PrepareUpTo(num, e, req, n, ns).1.Ok?
    ensures |PrepareUpTo(num, e, req, n, ns).1.value| == n
  {
    if n > 0 {
      AllPrepared(num, e, req, n - 1, ns);
    }
  }

  /** A group that is prepared has each of its members prepared, in order. */
  lemma {:induction false} PreparedInTurn(num: Numerics, e: ExecutorState, req: ExecutionRequest, n: nat,
                                          ns: MemberSpec -> int, i: nat)
    requires i < n <= |req.members| && PrepareUpTo(num, e, req, n, ns).1.Ok?
    ensures var ms := PrepareUpTo(num, e, req, n, ns).1.value;
      |ms| == n && Turn(num, e, req, ns, i).1 == Ok(ms[i])
  {
    AllPrepared(num, e, req, n - 1, ns);
    if i < n - 1 {
      PreparedInTurn(num, e, req, n - 1, ns, i);
    }
  }

  /** One that is not ends with the first member that is refused; what was prepared before it stays. */
  lemma {:induction false} RefusedInTurn(num: Numerics, e: ExecutorState, req: ExecutionRequest, n: nat,
                                         ns: MemberSpec -> int)
    returns (k: nat)
    requires n <= |req.members| && PrepareUpTo(num, e, req, n, ns).1.Err?
    ensures k < n && PrepareUpTo(num, e, req, k, ns).1.Ok?
    ensures var (e', r) := Turn(num, e, req, ns, k); r.Err? && PrepareUpTo(num, e, req, n, ns) == (e', Err(r.error))
  {
    if PrepareUpTo(num, e, req, n - 1, ns).1.Err? {
      k := RefusedInTurn(num, e, req, n - 1, ns);
    } else {
      k := n - 1;
      var _ := Turn(num, e, req, ns, k);
    }
  }

  /** The state has a staged step. */
  predicate Staged(e: ExecutorState, sid: nat) {
    sid in e.states && e.states[sid].tentative.Some?
  }

  /** A grant is carried out if and only if it is new and names what is staged, field by field, at this position. */
  lemma CommittedExactly(e: ExecutorState, g: CommitGrant)
    ensures Promotes(e, g) <==>
      && g.grant !in e.receipts && Staged(e, g.auth.state)
      && var st := e.states[g.auth.state]; var t := st.tentative.value;
      && t.proposal == g.proposal && t.auth == g.auth && t.pre == g.pre && t.post == g.post && st.tokens == g.position
    ensures Promotes(e, g) ==>
      var (e', r) := Commit(e, g); var sid := g.auth.state; var t := e.states[sid].tentative.value;
      && sid in e'.states && e'.states == e.states[sid := e'.states[sid]] && e'.nextProposal == e.nextProposal
      && e'.states[sid] == e.states[sid].(vec := t.vec, kv := t.kv, tokens := g.position + 1, tentative := None)
      && e'.consumed == e.consumed + {g.proposal} && r.Ok? && e'.receipts == e.receipts[g.grant := r.value]
      && r.value.receipt == r.value.grant == g.grant && r.value.proposal == g.proposal && r.value.auth == g.auth
      && r.value.before == g.position && r.value.after == g.position + 1 && r.value.pre == g.pre
      && r.value.post == g.post && r.value.delta == g.delta && r.value.kind == g.kind
      && r.value.terminal == g.terminal && r.value.token == g.token && r.value.activeNs == g.activeNs
  {
  }

  /** Otherwise nothing changes, and the answer says what is wrong; a replay gets its receipt again. */
  lemma CommitRefused(e: ExecutorState, g: CommitGrant)
    requires !Promotes(e, g)
    ensures var (e', r) := Commit(e, g); var sid := g.auth.state;
      && e' == e
      && (r.Ok? <==> g.grant in e.receipts && Answers(e.receipts[g.grant], g))
      && (r.Ok? ==> r.value == e.receipts[g.grant])
      && (r.Err? ==> r.error == if g.grant in e.receipts then 65
                                else if !Staged(e, sid) then 17
                                else if e.states[sid].tentative.value.proposal != g.proposal
                                        || e.states[sid].tentative.value.auth != g.auth then 69
                                else if e.states[sid].tentative.value.pre == g.pre
                                        && e.states[sid].tentative.value.post == g.post then 1
                                else 73)
  {
  }

  /** An abort clears what is staged if it names it, fails if that was committed, and does nothing else. */
  lemma AbortedExactly(e: ExecutorState, a: AbortPrepared)
    ensures var (e', r) := Abort(e, a); var sid := a.auth.state;
      && (r.Err? <==> a.proposal in e.consumed) && (r.Err? ==> r.error == 5 && e' == e)
      && (r.Ok? && Staged(e, sid) && e.states[sid].tentative.value.proposal == a.proposal ==>
            e' == e.(states := e.states[sid := e.states[sid].(tentative := None)]))
      && (!Staged(e, sid) || e.states[sid].tentative.value.proposal != a.proposal ==> e' == e)
  {
  }
}
