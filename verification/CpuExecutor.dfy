/**
 The CPU decode executor as an object: the tables it updates in place, with every
 operation tied to its meaning in `Executor`.
 */
module CpuExecutor {
  import opened Types
  import S = Executor

  /** After `i` members the executor is in state `e` and the group has come to `r`. */
  ghost predicate Reached(num: S.Numerics, start: S.ExecutorState, req: ExecutionRequest, ns: MemberSpec -> int, i: nat,
                          e: S.ExecutorState, r: Result<seq<PreparedMember>>)
    requires i <= |req.members|
  {
    S.PrepareUpTo(num, start, req, i, ns) == (e, r)
  }

  lemma StopsNext(num: S.Numerics, start: S.ExecutorState, req: ExecutionRequest, ns: MemberSpec -> int, i: nat,
                  e: S.ExecutorState, error: nat)
    requires i < |req.members| && Reached(num, start, req, ns, i, e, Err(error))
    ensures Reached(num, start, req, ns, i + 1, e, Err(error))
  {
  }

  /** A failed member ends the group where it stands. */
  lemma {:induction false} StaysFailed(num: S.Numerics, start: S.ExecutorState, req: ExecutionRequest,
                                       ns: MemberSpec -> int, i: nat, e: S.ExecutorState, error: nat)
    requires i <= |req.members| && Reached(num, start, req, ns, i, e, Err(error))
    ensures Reached(num, start, req, ns, |req.members|, e, Err(error))
    decreases |req.members| - i
  {
    if i < |req.members| {
      StopsNext(num, start, req, ns, i, e, error);
      StaysFailed(num, start, req, ns, i + 1, e, error);
    }
  }

  lemma OneMore(num: S.Numerics, e: S.ExecutorState, req: ExecutionRequest, ns: MemberSpec -> int, i: nat,
                e1: S.ExecutorState, out: seq<PreparedMember>, e2: S.ExecutorState, r: Result<PreparedMember>)
    requires i < |req.members| && S.PrepareUpTo(num, e, req, i, ns) == (e1, Ok(out))
    requires S.PrepareMember(num, e1, req, req.members[i], ns(req.members[i])) == (e2, r)
    ensures S.PrepareUpTo(num, e, req, i + 1, ns) == (e2, if r.Ok? then Ok(out + [r.value]) else Err(r.error))
  {
  }

  class CpuDecodeExecutor {
    const num: S.Numerics
    var states: map<nat, S.SeqState>
    var receiptsByGrant: map<nat, MemberReceipt>
    var consumedProposals: set<nat>
    var nextProposal: nat

    ghost function View(): S.ExecutorState
      reads this
    {
      S.ExecutorState(states, receiptsByGrant, consumedProposals, nextProposal)
    }

    constructor (num: S.Numerics)
      ensures View() == S.Fresh && this.num == num
    {
      this.num := num;
      states, receiptsByGrant, consumedProposals, nextProposal := map[], map[], {}, 0;
    }

    /** The committed state for a member, created on first use and stepped up to the coordinator's count. */
    method EnsureInitialized(m: MemberSpec) returns (st: S.SeqState)
      ensures st == S.Adopt(num, View(), m)
    {
      if m.state.id in states {
        st := states[m.state.id];
      } else {
        st := S.SeqState(S.Origin(m.state.id, m.attempt, m.state.bytesHeld), num.initial(m.state.id, m.attempt), 0,
                         m.state.bytesHeld, false, 0, None);
        if |m.payload| >= 1 {
          st := st.(eosEnabled := m.payload[0] & 1 != 0);
        }
        if |m.payload| >= 2 {
          st := st.(eosTarget := m.payload[1] as nat);
        }
      }
      ghost var start := st;
      while st.tokens < m.generatedTokens
        invariant S.CatchUp(num, st, m.generatedTokens) == S.CatchUp(num, start, m.generatedTokens)
        decreases m.generatedTokens - st.tokens
      {
        st := st.(vec := num.step(st.vec));
        st := st.(tokens := st.tokens + 1);
        st := st.(kv := (st.kv + S.KV_STEP) % TWO64);
      }
    }

    method PrepareMember(m: MemberSpec, req: ExecutionRequest, ns: int) returns (r: Result<PreparedMember>)
      modifies this
      ensures (View(), r) == S.PrepareMember(num, old(View()), req, m, ns)
    {
      var st := EnsureInitialized(m);
      states := states[m.state.id := st];
      if st.tentative.Some? {
        if st.tentative.value.auth.attempt == m.attempt && st.tentative.value.auth.generation == m.generation {
          return Err(ERR_DUPLICATE_COMPLETION);
        }
        if st.tentative.value.auth.attempt != m.attempt {
          st := st.(tentative := None);
        } else {
          return Err(ERR_TRANSACTION_CONFLICT);
        }
      }
      var next := num.step(st.vec);
      var token := num.token(next);
      var pre := num.digest(st.vec, st.tokens, st.kv);
      var kv := (st.kv + S.KV_STEP) % TWO64;
      var post := num.digest(next, st.tokens + 1, kv);
      nextProposal := nextProposal + 1;
      var auth := Authority(req.epoch, req.worker, req.workerBoot, m.sequence, m.state.id, m.attempt, m.generation,
        req.dispatch);
      states := states[m.state.id := st.(tentative := Some(S.Tentative(next, kv, nextProposal, auth, pre, post)))];
      assert states == old(states)[m.state.id := states[m.state.id]];
      var kind, last := STEP_SUCCESS_CONTINUE, false;
      if (st.eosEnabled && token == st.eosTarget) || m.generatedTokens + 1 >= m.generatedTokens + m.remainingBudget {
        kind, last := STEP_SUCCESS_TERMINAL, true;
      }
      r := Ok(PreparedMember(auth, nextProposal, pre, post, num.mix(pre, post),
                             MemberOutcome(m.sequence, kind, m.attempt, m.generation, 1, token, last, ERR_OK, [], false,
                                           0, ns, ns, S.KV_STEP, kv),
                             st.tokens, st.tokens + 1, ns));
    }

    /** Prepares the next member of a request of which `i` are prepared, with the results `done`. */
    method PrepareNext(req: ExecutionRequest, ns: MemberSpec -> int, i: nat, done: seq<PreparedMember>,
                       ghost start: S.ExecutorState)
      returns (r: Result<seq<PreparedMember>>)
      requires i < |req.members| && Reached(num, start, req, ns, i, View(), Ok(done))
      modifies this
      ensures Reached(num, start, req, ns, i + 1, View(), r)
    {
      ghost var before := View();
      var pm := PrepareMember(req.members[i], req, ns(req.members[i]));
      OneMore(num, start, req, ns, i, before, done, View(), pm);
      r := if pm.Ok? then Ok(done + [pm.value]) else Err(pm.error);
    }

    /** Prepares every member in order; the first failure fails the group and keeps what is already staged. */
    method PrepareMembers(req: ExecutionRequest, ns: MemberSpec -> int) returns (r: Result<seq<PreparedMember>>)
      modifies this
      ensures Reached(num, old(View()), req, ns, |req.members|, View(), r)
    {
      r := Ok([]);
      var i := 0;
      while i < |req.members| && r.Ok?
        invariant i <= |req.members| && Reached(num, old(View()), req, ns, i, View(), r)
      {
        r := PrepareNext(req, ns, i, r.value, old(View()));
        i := i + 1;
      }
      if r.Err? {
        StaysFailed(num, old(View()), req, ns, i, View(), r.error);
      }
    }

    method Prepare(req: ExecutionRequest, ns: MemberSpec -> int) returns (r: Result<PreparedDecode>)
      modifies this
      ensures (View(), r) == S.Prepare(num, old(View()), req, ns)
    {
      var members := PrepareMembers(req, ns);
      if members.Err? {
        return Err(members.error);
      }
      var total := 0;
      for i := 0 to |members.value|
        invariant total == S.TotalNs(members.value[..i])
      {
        assert members.value[..i + 1][..i] == members.value[..i];
        total := total + members.value[i].activeNs;
      }
      assert members.value[..|members.value|] == members.value;
      r := Ok(PreparedDecode(req.dispatch, req.epoch, req.worker, req.workerBoot, members.value, total, ERR_OK, []));
    }

    method Commit(g: CommitGrant) returns (r: Result<MemberReceipt>)
      modifies this
      ensures (View(), r) == S.Commit(old(View()), g)
    {
      if g.grant in receiptsByGrant {
        var existing := receiptsByGrant[g.grant];
        if Answers(existing, g) {
          return Ok(existing);
        }
        return Err(ERR_DUPLICATE_COMPLETION);
      }
      if g.auth.state !in states || states[g.auth.state].tentative.None? {
        return Err(ERR_UNKNOWN_STATE);
      }
      var st := states[g.auth.state];
      var t := st.tentative.value;
      if t.proposal != g.proposal || t.auth != g.auth {
        return Err(ERR_SUPERSEDED_BY_RETRY);
      }
      if t.pre != g.pre || t.post != g.post {
        return Err(ERR_STATE_DIGEST_MISMATCH);
      }
      if st.tokens != g.position {
        return Err(ERR_INVALID_ARGUMENT);
      }
      var before := st.tokens;
      states := states[g.auth.state := st.(vec := t.vec, tokens := before + 1, kv := t.kv, tentative := None)];
      consumedProposals := consumedProposals + {g.proposal};
      var rec := MemberReceipt(g.grant, g.grant, g.proposal, g.auth, before, before + 1, t.pre, t.post, g.delta,
                               g.kind, g.terminal, g.token, g.activeNs, 0);
      receiptsByGrant := receiptsByGrant[g.grant := rec];
      r := Ok(rec);
    }

    method Abort(a: AbortPrepared) returns (r: Result<()>)
      modifies this
      ensures (View(), r) == S.Abort(old(View()), a)
    {
      if a.proposal in consumedProposals {
        return Err(ERR_ALREADY_TERMINAL);
      }
      if a.auth.state !in states {
        return Ok(());
      }
      var st := states[a.auth.state];
      if st.tentative.Some? && st.tentative.value.proposal == a.proposal {
        states := states[a.auth.state := st.(tentative := None)];
      }
      r := Ok(());
    }

    /** The digest of the committed state, zero when the state is unknown. */
    method CommittedStateDigest(id: nat) returns (d: nat)
      ensures d == if id in states then S.CommittedDigest(num, states[id]) else 0
    {
      if id !in states {
        return 0;
      }
      d := num.digest(states[id].vec, states[id].tokens, states[id].kv);
    }
  }
}
