/** What holds in every run of the network. */
module Guarantees {
  // Whatever is lost, duplicated, delayed, reordered or misrouted, however often workers
  // restart, attempts are renewed, epochs roll or the coordinator recovers from its snapshot.

  import opened Types
  import opened Lifecycle
  import opened Network
  import opened NetworkInvariants
  import opened Collisions
  import F = Fabric
  import FI = FabricInvariants
  import E = Executor
  import S = NetworkSteps

  // ---------------------------------------------------------------------------
  // Exactly once

  /** Generations 1, 2, 3, ..., consecutive positions, chained digests, ending where the counters stand. */
  ghost predicate Consecutive(id: nat, t: F.Tally, es: seq<MemberReceipt>) {
    && t.generation == |es| + 1 && |es| <= t.generated
    && (forall i | 0 <= i < |es| :: EntryOk(id, t, es, i))
    && (es != [] ==> t.digestEstablished && t.digest == es[|es| - 1].post)
  }

  lemma SequenceFacts(cfg: F.Config, num: E.Numerics, n: Net, id: nat)
    requires NetInv(cfg, num, n) && id in n.fabric.seqs
    ensures FI.SeqOk(cfg, n.fabric, id, n.fabric.seqs[id])
    ensures LogOk(num, n.mail.requests, id, n.fabric.seqs[id], Entries(n.log, id))
  {
  }

  /**
   Every generation of a sequence is finalised once: the finalised receipts have
   consecutive generations and positions, each starts from the digest the previous one
   ended with, and the coordinator's counters and digest are those of the last one.
   */
  lemma ExactlyOnce(cfg: F.Config, num: E.Numerics, actions: seq<Action>, id: nat)
    ensures var n := Run(cfg, num, actions);
      id in n.fabric.seqs ==> Consecutive(id, n.fabric.seqs[id].tally, Entries(n.log, id))
  {
    var n := Run(cfg, num, actions);
    S.RunKeeps(cfg, num, actions);
    if id in n.fabric.seqs {
      SequenceFacts(cfg, num, n, id);
    }
  }

  // ---------------------------------------------------------------------------
  // Refinement of the pure recurrence

  /** Receipt `i` is the step of the recurrence started at `o` that its position says it is. */
  predicate StepOf(num: E.Numerics, o: E.Origin, es: seq<MemberReceipt>, i: nat)
    requires i < |es|
  {
    LawfulFrom(num, o, es[i].before, es[i].pre, es[i].post, es[i].token)
  }

  /**
   The next receipt in a chain is a step of the same recurrence as the one before it, unless two
   origins collide there.
   */
  lemma ChainStep(num: E.Numerics, rs: set<ExecutionRequest>, o: E.Origin, sid: nat, a: MemberReceipt, b: MemberReceipt)
    returns (p: E.Origin)
    requires LawfulFrom(num, o, a.before, a.pre, a.post, a.token)
    requires Lawful(num, rs, sid, b.before, b.pre, b.post, b.token)
    requires b.before == a.before + 1 && b.pre == a.post
    ensures p.state == sid && Requested(rs, p) && LawfulFrom(num, p, b.before, b.pre, b.post, b.token)
    ensures LawfulFrom(num, o, b.before, b.pre, b.post, b.token) || Collide(num, o, b.before, p, b.before)
  {
    p :| p.state == sid && Requested(rs, p) && LawfulFrom(num, p, b.before, b.pre, b.post, b.token);
    if !Collide(num, o, b.before, p, b.before) {
      OrbitsMerge(num, o, p, b.before);
    }
  }

  lemma Neighbours(num: E.Numerics, rs: set<ExecutionRequest>, id: nat, s: F.Sequence, es: seq<MemberReceipt>, k: nat)
    requires LogOk(num, rs, id, s, es) && 0 < k < |es|
    ensures Continues(num, rs, s.kv.id, es, k)
  {
    assert EntryOk(id, s.tally, es, k) && EntryOk(id, s.tally, es, k - 1);
  }

  /**
   The first `k` receipts, at least one, follow `o`, which a request of the run asked for; if
   that is not all of them, the next one follows `p`, which was asked for too and collides
   with `o` there.
   */
  ghost predicate FollowsUpTo(num: E.Numerics, rs: set<ExecutionRequest>, sid: nat, es: seq<MemberReceipt>,
                              o: E.Origin, p: E.Origin, k: nat) {
    && k <= |es| && o.state == sid && (es != [] ==> k > 0 && Requested(rs, o))
    && (forall i | 0 <= i < k :: StepOf(num, o, es, i))
    && (k < |es| ==>
      p.state == sid && Requested(rs, p) && StepOf(num, p, es, k) && Collide(num, o, es[k].before, p, es[k].before))
  }

  /** Receipt `k` continues the one before it. */
  ghost predicate Continues(num: E.Numerics, rs: set<ExecutionRequest>, sid: nat, es: seq<MemberReceipt>, k: nat)
    requires 0 < k < |es|
  {
    && es[k].before == es[k - 1].before + 1 && es[k].pre == es[k - 1].post
    && Lawful(num, rs, sid, es[k].before, es[k].pre, es[k].post, es[k].token)
  }

  lemma NextStep(num: E.Numerics, rs: set<ExecutionRequest>, sid: nat, es: seq<MemberReceipt>, o: E.Origin, k: nat)
    returns (p: E.Origin)
    requires 0 < k < |es| && Continues(num, rs, sid, es, k) && StepOf(num, o, es, k - 1)
    ensures p.state == sid && Requested(rs, p) && StepOf(num, p, es, k)
    ensures StepOf(num, o, es, k) || Collide(num, o, es[k].before, p, es[k].before)
  {
    p := ChainStep(num, rs, o, sid, es[k - 1], es[k]);
  }

  lemma {:induction false} FollowsOn(num: E.Numerics, rs: set<ExecutionRequest>, sid: nat, es: seq<MemberReceipt>,
                                     o: E.Origin, k: nat)
    returns (p: E.Origin, j: nat)
    requires forall i | 0 < i < |es| :: Continues(num, rs, sid, es, i)
    requires 0 < k <= |es| && o.state == sid && Requested(rs, o) && forall i | 0 <= i < k :: StepOf(num, o, es, i)
    ensures FollowsUpTo(num, rs, sid, es, o, p, j)
    decreases |es| - k
  {
    p, j := o, k;
    if k < |es| {
      assert Continues(num, rs, sid, es, k);
      p := NextStep(num, rs, sid, es, o, k);
      if StepOf(num, o, es, k) {
        p, j := FollowsOn(num, rs, sid, es, o, k + 1);
      }
    }
  }

  lemma FirstStep(num: E.Numerics, rs: set<ExecutionRequest>, id: nat, s: F.Sequence, es: seq<MemberReceipt>)
    returns (o: E.Origin)
    requires LogOk(num, rs, id, s, es) && es != []
    ensures o.state == s.kv.id && Requested(rs, o) && StepOf(num, o, es, 0)
  {
    assert Lawful(num, rs, s.kv.id, es[0].before, es[0].pre, es[0].post, es[0].token);
    o :| o.state == s.kv.id && Requested(rs, o)
      && LawfulFrom(num, o, es[0].before, es[0].pre, es[0].post, es[0].token);
  }

  /** Lawful steps that chain by digest follow the recurrence of the first one up to a collision. */
  lemma LogFollowsOne(num: E.Numerics, rs: set<ExecutionRequest>, id: nat, s: F.Sequence, es: seq<MemberReceipt>)
    returns (o: E.Origin, p: E.Origin, k: nat)
    requires LogOk(num, rs, id, s, es)
    ensures FollowsUpTo(num, rs, s.kv.id, es, o, p, k)
  {
    o, p, k := E.Origin(s.kv.id, 0, 0), E.Origin(s.kv.id, 0, 0), 0;
    if es != [] {
      o := FirstStep(num, rs, id, s, es);
      forall i | 0 < i < |es| ensures Continues(num, rs, s.kv.id, es, i) {
        Neighbours(num, rs, id, s, es, i);
      }
      p, k := FollowsOn(num, rs, s.kv.id, es, o, 1);
    }
  }

  /** No other state the run asked for collides with the recurrence from `o` where a receipt starts. */
  ghost predicate NoCollision(num: E.Numerics, rs: set<ExecutionRequest>, o: E.Origin, es: seq<MemberReceipt>) {
    forall p, i | 0 <= i < |es| && Requested(rs, p) && p.state == o.state ::
      !Collide(num, o, es[i].before, p, es[i].before)
  }

  /**
   What was finalised for a sequence is a run of one pure recurrence: from a single initial
   state that a request of the run asked for, receipt i carries the digests before and after
   its step and the token of that step. Only a digest collision can end this: if it does not
   hold of all receipts, two such states of the sequence's own state id collide at the
   position where it stops.
   */
  lemma Refinement(cfg: F.Config, num: E.Numerics, actions: seq<Action>, id: nat)
    returns (o: E.Origin, p: E.Origin, k: nat)
    ensures var n := Run(cfg, num, actions);
      id in n.fabric.seqs ==>
        var es, s := Entries(n.log, id), n.fabric.seqs[id];
        && Consecutive(id, s.tally, es) && FollowsUpTo(num, n.mail.requests, s.kv.id, es, o, p, k)
        && (NoCollision(num, n.mail.requests, o, es) ==> forall i | 0 <= i < |es| :: StepOf(num, o, es, i))
  {
    var n := Run(cfg, num, actions);
    S.RunKeeps(cfg, num, actions);
    if id in n.fabric.seqs {
      SequenceFacts(cfg, num, n, id);
      o, p, k := LogFollowsOne(num, n.mail.requests, id, n.fabric.seqs[id], Entries(n.log, id));
    } else {
      o, p, k := E.Origin(0, 0, 0), E.Origin(0, 0, 0), 0;
    }
  }

  // ---------------------------------------------------------------------------
  // Executors

  /** The state is the recurrence from its origin, run for its own token count; what is staged is a step of it. */
  ghost predicate Follows(num: E.Numerics, sid: nat, st: E.SeqState) {
    && st.origin.state == sid && st.vec == E.OrbitVec(num, st.origin, st.tokens)
    && (st.origin.kv0 < TWO64 ==> st.kv == (st.origin.kv0 + E.KV_STEP * st.tokens) % TWO64)
    && (st.tentative.Some? ==> exists q | 0 <= q <= st.tokens :: E.StagedAt(num, st.origin, st.tentative.value, q))
  }

  lemma StateOf(cfg: F.Config, num: E.Numerics, n: Net, e: nat, sid: nat)
    requires NetInv(cfg, num, n) && e in n.executors && sid in n.executors[e].states
    ensures StateOk(num, n.fabric, n.mail.requests, sid, n.executors[e].states[sid])
  {
    assert ExecutorOk(num, n.fabric, n.mail, n.executors[e]);
  }

  lemma StateFollows(num: E.Numerics, f: F.FabricState, requests: set<ExecutionRequest>, sid: nat, st: E.SeqState)
    requires StateOk(num, f, requests, sid, st)
    ensures Follows(num, sid, st)
  {
    if st.origin.kv0 < TWO64 {
      E.OrbitKvClosed(st.origin, st.tokens);
    }
    if st.tentative.Some? {
      var req, m, q :| req in requests && StagedBy(num, st, st.tentative.value, req, m, q);
    }
  }

  /**
   An executor's committed state is always the recurrence run for its own token count, and what it
   stages a step of it.
   */
  lemma ExecutorOrbit(cfg: F.Config, num: E.Numerics, actions: seq<Action>, e: nat, sid: nat)
    ensures var n := Run(cfg, num, actions);
      e in n.executors && sid in n.executors[e].states ==> Follows(num, sid, n.executors[e].states[sid])
  {
    var n := Run(cfg, num, actions);
    S.RunKeeps(cfg, num, actions);
    if e in n.executors && sid in n.executors[e].states {
      StateOf(cfg, num, n, e, sid);
      StateFollows(num, n.fabric, n.mail.requests, sid, n.executors[e].states[sid]);
    }
  }

  /**
   Two executors that first met a state with the same attempt and KV bytes agree on its
   digest whenever their token counts agree, whatever commits, aborts and catch-ups each saw.
   */
  lemma ExecutorsAgree(cfg: F.Config, num: E.Numerics, actions: seq<Action>, e1: nat, e2: nat, sid: nat)
    ensures var n := Run(cfg, num, actions);
      e1 in n.executors && e2 in n.executors && sid in n.executors[e1].states && sid in n.executors[e2].states ==>
        var a, b := n.executors[e1].states[sid], n.executors[e2].states[sid];
        a.origin == b.origin && a.tokens == b.tokens ==>
          E.CommittedDigest(num, a) == E.CommittedDigest(num, b)
  {
    var n := Run(cfg, num, actions);
    S.RunKeeps(cfg, num, actions);
    if e1 in n.executors && e2 in n.executors && sid in n.executors[e1].states && sid in n.executors[e2].states {
      StateOf(cfg, num, n, e1, sid);
      StateOf(cfg, num, n, e2, sid);
    }
  }

  /**
   No executor runs ahead: its committed tokens never exceed the generated count of the
   sequence that uses the state by more than one.
   */
  lemma BoundedLead(cfg: F.Config, num: E.Numerics, actions: seq<Action>, e: nat, id: nat)
    ensures var n := Run(cfg, num, actions);
      && e in n.executors && id in n.fabric.seqs
      && (forall k | k in n.fabric.seqs && n.fabric.seqs[k].kv.id == n.fabric.seqs[id].kv.id :: k == id)
      ==>
        var sid := n.fabric.seqs[id].kv.id;
        sid in n.executors[e].states ==> n.executors[e].states[sid].tokens <= n.fabric.seqs[id].tally.generated + 1
  {
    var n := Run(cfg, num, actions);
    S.RunKeeps(cfg, num, actions);
    if e in n.executors && id in n.fabric.seqs && n.fabric.seqs[id].kv.id in n.executors[e].states {
      var sid := n.fabric.seqs[id].kv.id;
      assert ExecutorOk(num, n.fabric, n.mail, n.executors[e]);
      assert StateOk(num, n.fabric, n.mail.requests, sid, n.executors[e].states[sid]);
      var k: nat :| Tracked(n.fabric, k, sid)
        && n.executors[e].states[sid].tokens <= n.fabric.seqs[k].tally.generated + 1;
    }
  }

  // ---------------------------------------------------------------------------
  // Counters and terminal states

  /** The counters move together inside the budget, so no budget advance is ever refused. */
  lemma CounterLockstep(cfg: F.Config, num: E.Numerics, actions: seq<Action>, id: nat)
    ensures var n := Run(cfg, num, actions);
      id in n.fabric.seqs ==>
        var s := n.fabric.seqs[id];
        && s.tally.generated == s.tally.committed == s.tally.budget.generated <= s.req.maxGeneration
        && s.tally.budget.max == s.req.maxGeneration
        && s.tally.currentLength == s.req.promptLength + s.tally.committed
        && (s.attemptCount <= 1 || s.attemptCount <= cfg.maxAttempts)
        && (s.pending.Some? || s.flight.dispatch != NULL ==>
          s.tally.budget.Advance(1).generated == s.tally.budget.generated + 1)
  {
    S.RunKeeps(cfg, num, actions);
    var n := Run(cfg, num, actions);
    if id in n.fabric.seqs {
      assert FI.SeqOk(cfg, n.fabric, id, n.fabric.seqs[id]);
    }
  }

  /**
   From any point of a run on, recoveries included, a sequence gains one generation for each token
   and loses neither.
   */
  lemma GenerationCounts(cfg: F.Config, num: E.Numerics, actions: seq<Action>, more: seq<Action>, id: nat)
    ensures var n := Run(cfg, num, actions);
      var n' := RunFrom(cfg, num, n, more);
      id in n.fabric.seqs ==>
        && id in n'.fabric.seqs
        && var t, t' := n.fabric.seqs[id].tally, n'.fabric.seqs[id].tally;
        t'.generation - t.generation == t'.generated - t.generated == |Entries(n'.log, id)| - |Entries(n.log, id)| >= 0
  {
    var n := Run(cfg, num, actions);
    var n' := RunFrom(cfg, num, n, more);
    S.RunKeeps(cfg, num, actions);
    S.RunFromKeeps(cfg, num, n, more);
    if id in n.fabric.seqs {
      assert FI.SeqStep(n.fabric.next.dispatch, n.fabric.seqs[id], n'.fabric.seqs[id]);
      SequenceFacts(cfg, num, n, id);
      SequenceFacts(cfg, num, n', id);
    }
  }

  /** A terminal sequence never changes again, and the terminal records hold exactly its state. */
  lemma TerminalForever(cfg: F.Config, num: E.Numerics, actions: seq<Action>, more: seq<Action>, id: nat)
    ensures var n := Run(cfg, num, actions);
      var n' := RunFrom(cfg, num, n, more);
      id in n.fabric.seqs && Terminal(n.fabric.seqs[id].state) ==>
        && id in n'.fabric.seqs
        && n'.fabric.seqs[id].state == n.fabric.seqs[id].state
        && n'.fabric.seqs[id].tally == n.fabric.seqs[id].tally
        && id in n'.fabric.terminal && n'.fabric.terminal[id] == n.fabric.seqs[id].state
  {
    var n := Run(cfg, num, actions);
    S.RunKeeps(cfg, num, actions);
    S.RunFromKeeps(cfg, num, n, more);
    if id in n.fabric.seqs && Terminal(n.fabric.seqs[id].state) {
      TerminalKept(cfg, n.fabric, RunFrom(cfg, num, n, more).fabric, id);
    }
  }

  /** Once cancellation is requested or a sequence has ended, no run ever finalises another token for it. */
  lemma StoppedForever(cfg: F.Config, num: E.Numerics, actions: seq<Action>, more: seq<Action>, id: nat)
    ensures var n := Run(cfg, num, actions);
      var n' := RunFrom(cfg, num, n, more);
      id in n.fabric.seqs && Stopped(n.fabric.seqs[id].state) ==>
        && id in n'.fabric.seqs && Stopped(n'.fabric.seqs[id].state)
        && n'.fabric.seqs[id].tally == n.fabric.seqs[id].tally && |Entries(n'.log, id)| == |Entries(n.log, id)|
  {
    var n := Run(cfg, num, actions);
    var n' := RunFrom(cfg, num, n, more);
    S.RunKeeps(cfg, num, actions);
    S.RunFromKeeps(cfg, num, n, more);
    if id in n.fabric.seqs && Stopped(n.fabric.seqs[id].state) {
      StoppedKept(n.fabric, n'.fabric, id);
      SequenceFacts(cfg, num, n, id);
      SequenceFacts(cfg, num, n', id);
    }
  }

  lemma StoppedKept(f: F.FabricState, f': F.FabricState, id: nat)
    requires FI.Evolves(f, f') && id in f.seqs && Stopped(f.seqs[id].state)
    ensures id in f'.seqs && Stopped(f'.seqs[id].state) && f'.seqs[id].tally == f.seqs[id].tally
  {
    assert FI.SeqStep(f.next.dispatch, f.seqs[id], f'.seqs[id]);
  }

  /** Cancelling stops a sequence exactly when its state is not one of those that pass it by. */
  lemma CancelStops(f: F.FabricState, id: nat)
    requires id in f.seqs
    ensures id in F.Cancel(f, id).seqs && (Stopped(F.Cancel(f, id).seqs[id].state) <==> !DeafToCancel(f.seqs[id].state))
  {
    if !Stopped(f.seqs[id].state) {
      CancelMoves(f.seqs[id].state);
    }
  }

  lemma TerminalKept(cfg: F.Config, f: F.FabricState, f': F.FabricState, id: nat)
    requires FI.Inv(cfg, f') && FI.Evolves(f, f') && id in f.seqs && Terminal(f.seqs[id].state)
    ensures id in f'.seqs && f'.seqs[id].state == f.seqs[id].state && f'.seqs[id].tally == f.seqs[id].tally
    ensures id in f'.terminal && f'.terminal[id] == f.seqs[id].state
  {
    assert FI.SeqStep(f.next.dispatch, f.seqs[id], f'.seqs[id]);
    assert FI.SeqOk(cfg, f', id, f'.seqs[id]);
  }
}
