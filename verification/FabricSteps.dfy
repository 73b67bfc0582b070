/**
 The operations that move a sequence forward: admission, dispatch, authorisation,
 receipts and aborts keep the fabric's invariant and change sequences only as
 `Evolves` allows. Each is taken apart into what it does to one sequence, to its grant
 and to device memory.
 */
module FabricSteps {
  import opened Types
  import opened Lifecycle
  import opened Fabric
  import opened FabricInvariants
  import G = Grouping
  import GP = GroupingProofs
  import M = Memory

  // ---------------------------------------------------------------------------
  // Admission

  lemma SubmitKeeps(cfg: Config, f: FabricState, req: DecodeRequest, workerOrder: seq<nat>, admit: bool)
    requires Inv(cfg, f)
    ensures Inv(cfg, Submit(f, req, workerOrder, admit)) && Steady(f, Submit(f, req, workerOrder, admit))
  {
    var f' := Submit(f, req, workerOrder, admit);
    forall id | id in f'.seqs
      ensures SeqOk(cfg, f', id, f'.seqs[id])
    {
      if id in f.seqs {
        assert SeqOk(cfg, f, id, f.seqs[id]);
      }
    }
  }

  // ---------------------------------------------------------------------------
  // Dispatch

  lemma CollectOneCalm(cfg: Config, f: FabricState, id: nat, workerOrder: seq<nat>, score: map<nat, real>)
    ensures var (f', more) := CollectOne(f, id, workerOrder, score); Calm(cfg, f, f') && Runnable(f', more)
  {
    if id in f.seqs && Candidate(f.seqs[id].state) && f.seqs[id].tally.budget.Exhausted() {
      CloseCalm(cfg, f, id, Completed);
    }
  }

  lemma {:induction false} CollectCalm(cfg: Config, f: FabricState, order: seq<nat>, workerOrder: seq<nat>,
                                       score: map<nat, real>)
    ensures var (f', cs) := Collect(f, order, workerOrder, score); Calm(cfg, f, f') && Runnable(f', cs)
  {
    if order != [] {
      var (f1, cs) := Collect(f, order[..|order| - 1], workerOrder, score);
      CollectCalm(cfg, f, order[..|order| - 1], workerOrder, score);
      CollectOneCalm(cfg, f1, order[|order| - 1], workerOrder, score);
      var (f2, more) := CollectOne(f1, order[|order| - 1], workerOrder, score);
      CalmTrans(cfg, f, f1, f2);
      RunnableCalm(cfg, f1, f2, cs);
    }
  }

  /** Every listed candidate still has budget. */
  ghost predicate Runnable(f: FabricState, cs: seq<G.Candidate>) {
    forall c | c in cs :: c.sequence in f.seqs && !f.seqs[c.sequence].tally.budget.Exhausted()
  }

  lemma RunnableCalm(cfg: Config, f: FabricState, f': FabricState, cs: seq<G.Candidate>)
    requires Calm(cfg, f, f') && Runnable(f, cs)
    ensures Runnable(f', cs)
  {
    forall c | c in cs
      ensures c.sequence in f'.seqs && !f'.seqs[c.sequence].tally.budget.Exhausted()
    {
      assert CalmSeq(cfg, f.seqs[c.sequence], f'.seqs[c.sequence]);
    }
  }

  lemma MoveOneCalm(cfg: Config, f: FabricState, id: nat, to: SequenceState)
    requires id in f.seqs && !Terminal(to)
    ensures Calm(cfg, f, Put(f, id, f.seqs[id].(state := Move(f.seqs[id].state, to))))
  {
    if Stopped(f.seqs[id].state) { StoppedMoves(f.seqs[id].state, to); }
    CalmOne(cfg, f, Put(f, id, f.seqs[id].(state := Move(f.seqs[id].state, to))), id, NULL);
  }

  lemma {:induction false} MoveAllCalm(cfg: Config, f: FabricState, members: seq<G.Candidate>, to: SequenceState)
    requires !Terminal(to)
    ensures Calm(cfg, f, MoveAll(f, members, to))
  {
    if members != [] {
      var f1 := MoveAll(f, members[..|members| - 1], to);
      MoveAllCalm(cfg, f, members[..|members| - 1], to);
      var id := members[|members| - 1].sequence;
      if id in f1.seqs {
        MoveOneCalm(cfg, f1, id, to);
        CalmTrans(cfg, f, f1, MoveAll(f, members, to));
      }
    }
  }

  lemma {:induction false} MoveGroupsCalm(cfg: Config, f: FabricState, groups: seq<G.Group>, to: SequenceState)
    requires !Terminal(to)
    ensures Calm(cfg, f, MoveGroups(f, groups, to))
  {
    if groups != [] {
      var f1 := MoveGroups(f, groups[..|groups| - 1], to);
      MoveGroupsCalm(cfg, f, groups[..|groups| - 1], to);
      MoveAllCalm(cfg, f1, groups[|groups| - 1].members, to);
      CalmTrans(cfg, f, f1, MoveGroups(f, groups, to));
    }
  }

  /** `t` is `s`, possibly bound to dispatch `d`. */
  predicate BoundSeq(d: nat, s: Sequence, t: Sequence) {
    && t.req == s.req && t.kv == s.kv && t.tally == s.tally && t.pending == s.pending
      && t.attemptCount == s.attemptCount
    && (t.flight == s.flight
        || (t.flight.dispatch == d && t.flight.generation == s.tally.generation && !s.tally.budget.Exhausted()))
    && (Terminal(s.state) || Terminal(t.state) ==> t.state == s.state) && (Stopped(s.state) ==> t.state == s.state)
  }

  ghost predicate Bound(d: nat, f: FabricState, f': FabricState) {
    && f'.seqs.Keys == f.seqs.Keys
    && f'.ledger == f.ledger && f'.next == f.next && f'.stats == f.stats && f'.terminal == f.terminal
    && (forall id | id in f.seqs :: BoundSeq(d, f.seqs[id], f'.seqs[id]))
  }

  lemma {:induction false} BindAllBound(f: FabricState, members: seq<G.Candidate>, d: nat, worker: nat,
                                        reservation: nat)
    requires Runnable(f, members)
    ensures Bound(d, f, BindAll(f, members, d, worker, reservation))
    ensures BindAll(f, members, d, worker, reservation).memory == f.memory
    ensures BindAll(f, members, d, worker, reservation).workers == f.workers
  {
    if members != [] {
      var front := members[..|members| - 1];
      BindAllBound(f, front, d, worker, reservation);
      var f1, id := BindAll(f, front, d, worker, reservation), members[|members| - 1].sequence;
      assert members[|members| - 1] in members;
      assert BoundSeq(d, f.seqs[id], f1.seqs[id]);
    }
  }

  lemma BoundKeeps(cfg: Config, f: FabricState, f': FabricState, d: nat)
    requires Inv(cfg, f) && Bound(d, f, f') && d < f.next.dispatch
    ensures Inv(cfg, f')
    ensures forall id | id in f.seqs :: SeqStep(d, f.seqs[id], f'.seqs[id])
  {
    forall id | id in f.seqs
      ensures SeqOk(cfg, f', id, f'.seqs[id]) && SeqStep(d, f.seqs[id], f'.seqs[id])
    {
      assert SeqOk(cfg, f, id, f.seqs[id]) && BoundSeq(d, f.seqs[id], f'.seqs[id]);
    }
  }

  /** A request agrees with the fabric about the sequences it carries. */
  ghost predicate RequestOk(f: FabricState, req: ExecutionRequest) {
    && 1 <= req.dispatch < f.next.dispatch
    && (forall m | m in req.members :: SpecOk(f, req.dispatch, m))
  }

  /** The token count sent out is never ahead, and is exact while the dispatch is current. */
  predicate SpecOk(f: FabricState, d: nat, m: MemberSpec) {
    && m.sequence in f.seqs
    && var s := f.seqs[m.sequence];
    && m.state.id == s.kv.id && m.generatedTokens <= s.tally.generated
    && m.generatedTokens + m.remainingBudget == s.req.maxGeneration
    && (s.flight.dispatch == d ==> m.generatedTokens == s.tally.generated)
  }

  lemma RequestStays(f: FabricState, f': FabricState, req: ExecutionRequest)
    requires RequestOk(f, req) && Evolves(f, f')
    ensures RequestOk(f', req)
  {
    forall m | m in req.members
      ensures SpecOk(f', req.dispatch, m)
    {
      assert SpecOk(f, req.dispatch, m) && SeqStep(f.next.dispatch, f.seqs[m.sequence], f'.seqs[m.sequence]);
    }
  }

  lemma {:induction false} SpecsFaithful(f: FabricState, members: seq<G.Candidate>)
    ensures forall m | m in Specs(f, members) :: m.sequence in f.seqs && m == SpecOf(m.sequence, f.seqs[m.sequence])
  {
    if members != [] {
      SpecsFaithful(f, members[..|members| - 1]);
    }
  }

  /** No sequence, request, counter or statistic changes. */
  ghost predicate Unmoved(f: FabricState, f': FabricState) {
    && f'.seqs.Keys == f.seqs.Keys && f'.stats == f.stats
    && (forall id | id in f.seqs :: f'.seqs[id].tally == f.seqs[id].tally && f'.seqs[id].req == f.seqs[id].req)
  }

  lemma CalmUnmoved(cfg: Config, f: FabricState, f': FabricState)
    requires Calm(cfg, f, f')
    ensures Unmoved(f, f')
  {
    forall id | id in f.seqs ensures f'.seqs[id].tally == f.seqs[id].tally && f'.seqs[id].req == f.seqs[id].req {
      assert CalmSeq(cfg, f.seqs[id], f'.seqs[id]);
    }
  }

  ghost predicate NoNewGrants(f: FabricState, f': FabricState) {
    && f'.seqs.Keys == f.seqs.Keys && f'.ledger == f.ledger && f'.next.grant == f.next.grant
    && (forall id | id in f.seqs :: f'.seqs[id].pending == f.seqs[id].pending || f'.seqs[id].pending.None?)
  }

  lemma CalmGrants(cfg: Config, f: FabricState, f': FabricState)
    requires Calm(cfg, f, f')
    ensures NoNewGrants(f, f')
  {
    forall id | id in f.seqs ensures f'.seqs[id].pending == f.seqs[id].pending || f'.seqs[id].pending.None? {
      assert CalmSeq(cfg, f.seqs[id], f'.seqs[id]);
    }
  }

  /** What one dispatched group does: fresh identity, faithful specs, budgets untouched. */
  ghost predicate DispatchStep(cfg: Config, f: FabricState, f': FabricState, out: seq<ExecutionRequest>) {
    && Inv(cfg, f') && Steady(f, f') && Unmoved(f, f') && MemoryKept(f, f') && NoNewGrants(f, f')
    && (forall req | req in out :: RequestOk(f', req) && req.dispatch >= f.next.dispatch)
  }

  lemma CalmDispatchStep(cfg: Config, f: FabricState, f': FabricState)
    requires Inv(cfg, f) && Calm(cfg, f, f')
    ensures DispatchStep(cfg, f, f', [])
  {
    CalmKeeps(cfg, f, f');
    CalmUnmoved(cfg, f, f');
    CalmGrants(cfg, f, f');
  }

  /** `f0` is `f` with one more dispatch id taken. */
  predicate Numbered(f: FabricState, f0: FabricState) {
    && f0.seqs == f.seqs && f0.ledger == f.ledger && f0.terminal == f.terminal && f0.stats == f.stats
    && f0.next == f.next.(dispatch := f.next.dispatch + 1)
  }

  lemma NumberedKeeps(cfg: Config, f: FabricState, f0: FabricState)
    requires Inv(cfg, f) && Numbered(f, f0)
    ensures Inv(cfg, f0)
  {
    forall id | id in f0.seqs ensures SeqOk(cfg, f0, id, f0.seqs[id]) {
      assert SeqOk(cfg, f, id, f.seqs[id]);
    }
  }

  lemma BoundUnmoved(d: nat, f: FabricState, f': FabricState)
    requires Bound(d, f, f')
    ensures Unmoved(f, f') && NoNewGrants(f, f')
  {
    assert forall id | id in f.seqs :: BoundSeq(d, f.seqs[id], f'.seqs[id]);
  }

  lemma BoundRequestOk(cfg: Config, f: FabricState, f': FabricState, req: ExecutionRequest, members: seq<G.Candidate>)
    requires Inv(cfg, f) && Unmoved(f, f') && f'.next.dispatch == f.next.dispatch + 1
    requires forall id | id in f.seqs :: f'.seqs[id].kv == f.seqs[id].kv
    requires req.dispatch == f.next.dispatch && req.members == Specs(f, members)
    ensures RequestOk(f', req)
  {
    SpecsFaithful(f, members);
    assert forall m | m in req.members :: SpecOk(f', req.dispatch, m);
  }

  lemma BoundDispatchStep(cfg: Config, f: FabricState, f0: FabricState, f': FabricState, req: ExecutionRequest,
                          members: seq<G.Candidate>)
    requires Inv(cfg, f) && Numbered(f, f0) && Bound(f.next.dispatch, f0, f') && MemoryKept(f, f')
    requires req.dispatch == f.next.dispatch && req.members == Specs(f, members)
    ensures DispatchStep(cfg, f, f', [req])
  {
    NumberedKeeps(cfg, f, f0);
    BoundKeeps(cfg, f0, f', f.next.dispatch);
    BoundUnmoved(f.next.dispatch, f0, f');
    assert forall id | id in f.seqs :: BoundSeq(f.next.dispatch, f.seqs[id], f'.seqs[id]);
    BoundRequestOk(cfg, f, f', req, members);
  }

  /** A reservation is only made where there is room for it. */
  lemma SendToKeepsMemory(f: FabricState, chosen: nat, g: G.Group)
    requires Runnable(f, g.members) && chosen in f.workers
    requires M.HasRoom(f.memory, f.workers[chosen].device.id, Growth(f, g.members))
    ensures MemoryKept(f, SendTo(f, f.workers[chosen], g))
  {
    var w := f.workers[chosen];
    var f0 := Booked(f, w, g);
    BindAllBound(f0, g.members, f.next.dispatch, w.id, f.memory.nextReservation);
    if MemoryOk(f) {
      M.ReserveBalanced(f.memory, w.device.id, Growth(f, g.members));
    }
  }

  lemma SendToKeeps(cfg: Config, f: FabricState, chosen: nat, g: G.Group)
    requires Inv(cfg, f) && Runnable(f, g.members) && chosen in f.workers
    requires M.HasRoom(f.memory, f.workers[chosen].device.id, Growth(f, g.members))
    ensures DispatchStep(cfg, f, SendTo(f, f.workers[chosen], g), [RequestFor(cfg, f, f.workers[chosen], g)])
  {
    var w := f.workers[chosen];
    SendToKeepsMemory(f, chosen, g);
    var f0 := Booked(f, w, g);
    BindAllBound(f0, g.members, f.next.dispatch, w.id, f.memory.nextReservation);
    BoundDispatchStep(cfg, f, f0, SendTo(f, w, g), RequestFor(cfg, f, w, g), g.members);
  }

  lemma DispatchGroupKeeps(cfg: Config, f: FabricState, workerOrder: seq<nat>, g: G.Group)
    requires Inv(cfg, f) && Runnable(f, g.members)
    ensures var (f', out) := DispatchGroup(cfg, f, workerOrder, g); DispatchStep(cfg, f, f', out)
  {
    var (f', out) := DispatchGroup(cfg, f, workerOrder, g);
    if out == [] {
      MoveAllCalm(cfg, f, g.members, Ready);
      CalmDispatchStep(cfg, f, f');
    } else {
      SendToKeeps(cfg, f, Place(f, workerOrder, g.key).value, g);
    }
  }

  lemma DispatchStepTrans(cfg: Config, f: FabricState, f1: FabricState, f2: FabricState,
                          out: seq<ExecutionRequest>, more: seq<ExecutionRequest>)
    requires Inv(cfg, f) && DispatchStep(cfg, f, f1, out) && DispatchStep(cfg, f1, f2, more)
    ensures DispatchStep(cfg, f, f2, out + more)
  {
    SteadyTrans(cfg, f, f1, f2);
    forall req | req in out + more
      ensures RequestOk(f2, req) && req.dispatch >= f.next.dispatch
    {
      if req in out {
        RequestStays(f1, f2, req);
      }
    }
  }

  lemma {:induction false} DispatchAllKeeps(cfg: Config, f: FabricState, workerOrder: seq<nat>, groups: seq<G.Group>)
    requires Inv(cfg, f) && forall g | g in groups :: Runnable(f, g.members)
    ensures var (f', out) := DispatchAll(cfg, f, workerOrder, groups); DispatchStep(cfg, f, f', out)
  {
    if groups != [] {
      var front, g := groups[..|groups| - 1], groups[|groups| - 1];
      DispatchAllKeeps(cfg, f, workerOrder, front);
      var (f1, out) := DispatchAll(cfg, f, workerOrder, front);
      assert g in groups;
      assert Runnable(f1, g.members);
      DispatchGroupKeeps(cfg, f1, workerOrder, g);
      var (f2, more) := DispatchGroup(cfg, f1, workerOrder, g);
      DispatchStepTrans(cfg, f, f1, f2, out, more);
    }
  }

  lemma ScheduleKeeps(cfg: Config, f: FabricState, now: int, order: seq<nat>, workerOrder: seq<nat>,
                      score: map<nat, real>)
    requires Inv(cfg, f)
    ensures var (f', out) := Schedule(cfg, f, now, order, workerOrder, score); DispatchStep(cfg, f, f', out)
  {
    var f1 := Advance(f, now, order);
    AdvanceCalm(cfg, f, now, order);
    CollectCalm(cfg, f1, order, workerOrder, score);
    var (f2, cs) := Collect(f1, order, workerOrder, score);
    CalmTrans(cfg, f, f1, f2);
    var groups := G.FormGroups(cfg.limits, cfg.keyText, cs);
    MoveGroupsCalm(cfg, f2, groups, Grouped);
    var f3 := MoveGroups(f2, groups, Grouped);
    CalmTrans(cfg, f, f2, f3);
    CalmDispatchStep(cfg, f, f3);
    RunnableCalm(cfg, f2, f3, cs);
    GP.MembersAreCandidates(cfg.limits, cfg.keyText, cs);
    DispatchAllKeeps(cfg, f3, workerOrder, groups);
    var (f4, out) := DispatchAll(cfg, f3, workerOrder, groups);
    DispatchStepTrans(cfg, f, f3, f4, [], out);
    assert [] + out == out;
  }

  // ---------------------------------------------------------------------------
  // Authorisation

  /** What every executor's report satisfies: a real dispatch, and an outcome that names its own sequence. */
  predicate Honest(pm: PreparedMember) {
    pm.auth.dispatch != NULL && pm.outcome.sequence == pm.auth.sequence
  }

  lemma IssuedOk(cfg: Config, f: FabricState, prepared: PreparedDecode, pm: PreparedMember)
    requires Honest(pm) && Authorised(cfg, f, pm) && SeqOk(cfg, f, pm.auth.sequence, f.seqs[pm.auth.sequence])
    ensures var f', id := Issue(f, prepared, pm), pm.auth.sequence;
      SeqOk(cfg, f', id, f'.seqs[id]) && SeqStep(f.next.dispatch, f.seqs[id], f'.seqs[id])
  {
  }

  /** A new grant id is above every pending one. */
  lemma IssuedOther(cfg: Config, f: FabricState, prepared: PreparedDecode, pm: PreparedMember, k: nat)
    requires pm.auth.sequence in f.seqs && k in f.seqs && k != pm.auth.sequence && SeqOk(cfg, f, k, f.seqs[k])
    ensures var f' := Issue(f, prepared, pm); f'.seqs[k] == f.seqs[k] && SeqOk(cfg, f', k, f'.seqs[k])
  {
  }

  lemma IssueKeeps(cfg: Config, f: FabricState, prepared: PreparedDecode, pm: PreparedMember)
    requires Inv(cfg, f) && Honest(pm) && Authorised(cfg, f, pm)
    ensures Inv(cfg, Issue(f, prepared, pm)) && Steady(f, Issue(f, prepared, pm))
  {
    var f', id := Issue(f, prepared, pm), pm.auth.sequence;
    assert SeqOk(cfg, f, id, f.seqs[id]);
    IssuedOk(cfg, f, prepared, pm);
    forall k | k in f'.seqs && k != id ensures f'.seqs[k] == f.seqs[k] && SeqOk(cfg, f', k, f'.seqs[k]) {
      IssuedOther(cfg, f, prepared, pm, k);
    }
  }

  lemma IssueUnmoved(f: FabricState, prepared: PreparedDecode, pm: PreparedMember)
    requires pm.auth.sequence in f.seqs
    ensures Unmoved(f, Issue(f, prepared, pm)) && MemoryKept(f, Issue(f, prepared, pm))
  {
  }

  lemma AuthoriseMemberKeeps(cfg: Config, f: FabricState, prepared: PreparedDecode, pm: PreparedMember)
    requires Inv(cfg, f) && Honest(pm)
    ensures var f' := AuthoriseMember(cfg, f, prepared, pm).0;
      Inv(cfg, f') && Steady(f, f') && Unmoved(f, f') && MemoryKept(f, f')
  {
    if Authorised(cfg, f, pm) {
      IssueKeeps(cfg, f, prepared, pm);
      IssueUnmoved(f, prepared, pm);
    } else if pm.auth.sequence in f.seqs {
      var f' := AuthoriseMember(cfg, f, prepared, pm).0;
      if Current(f, pm) && !Succeeded(pm.outcome.kind) {
        LandedOutcomeCalm(cfg, f, pm.auth.sequence, pm.outcome);
      } else {
        ReconcileCalm(cfg, f, pm.auth.sequence);
      }
      CalmKeeps(cfg, f, f');
      CalmUnmoved(cfg, f, f');
    }
  }

  // ---------------------------------------------------------------------------
  // Receipts and aborts

  lemma FinalisedOk(cfg: Config, f: FabricState, rec: MemberReceipt)
    requires Inv(cfg, f) && Finalises(f, rec)
    ensures var id := rec.auth.sequence; var f' := Finalise(cfg, f, rec);
      SeqOk(cfg, f', id, f'.seqs[id]) && SeqStep(f.next.dispatch, f.seqs[id], f'.seqs[id])
  {
    assert SeqOk(cfg, f, rec.auth.sequence, f.seqs[rec.auth.sequence]);
  }

  /** Finalising a receipt is about one sequence. */
  lemma FinaliseOthers(cfg: Config, f: FabricState, rec: MemberReceipt)
    requires Finalises(f, rec)
    ensures var f' := Finalise(cfg, f, rec);
      f'.seqs.Keys == f.seqs.Keys && forall k | k in f.seqs && k != rec.auth.sequence :: f'.seqs[k] == f.seqs[k]
  {
  }

  /** A finalised receipt continues its sequence exactly where it stands. */
  lemma FinaliseExtends(cfg: Config, f: FabricState, rec: MemberReceipt)
    requires Inv(cfg, f) && Finalises(f, rec)
    ensures var s := f.seqs[rec.auth.sequence]; var t := Finalise(cfg, f, rec).seqs[rec.auth.sequence];
      && rec.auth.generation == s.tally.generation && rec.before == s.tally.generated
      && (s.tally.digestEstablished ==> rec.pre == s.tally.digest)
      && t.tally.generation == s.tally.generation + 1 && t.tally.generated == s.tally.generated + 1
      && t.tally.digest == rec.post && t.tally.digestEstablished
      && t.tally.budget.generated == s.tally.budget.generated + 1
  {
    assert SeqOk(cfg, f, rec.auth.sequence, f.seqs[rec.auth.sequence]);
  }

  lemma FinaliseKeeps(cfg: Config, f: FabricState, rec: MemberReceipt)
    requires Inv(cfg, f) && Finalises(f, rec)
    ensures Inv(cfg, Finalise(cfg, f, rec)) && Evolves(f, Finalise(cfg, f, rec))
    ensures MemoryKept(f, Finalise(cfg, f, rec))
  {
    ReleaseKeepsMemory(f, Finalise(cfg, f, rec), f.seqs[rec.auth.sequence].reservation);
    var f', id := Finalise(cfg, f, rec), rec.auth.sequence;
    assert SeqOk(cfg, f, id, f.seqs[id]);
    forall k | k in f'.seqs
      ensures SeqOk(cfg, f', k, f'.seqs[k]) && SeqStep(f.next.dispatch, f.seqs[k], f'.seqs[k])
    {
      if k == id {
        FinalisedOk(cfg, f, rec);
      } else {
        assert SeqOk(cfg, f, k, f.seqs[k]);
      }
    }
  }

  lemma AbortPendingUnmoved(f: FabricState, a: AbortPrepared)
    ensures Unmoved(f, AbortPending(f, a)) && MemoryKept(f, AbortPending(f, a))
  {
    if AbortPending(f, a) != f {
      ReleaseKeepsMemory(f, AbortPending(f, a), f.seqs[a.auth.sequence].reservation);
    }
  }

  lemma AbortedOk(cfg: Config, f: FabricState, a: AbortPrepared)
    requires a.auth.sequence in f.seqs && SeqOk(cfg, f, a.auth.sequence, f.seqs[a.auth.sequence])
      && AbortPending(f, a) != f
    ensures var f', id := AbortPending(f, a), a.auth.sequence;
      SeqOk(cfg, f', id, f'.seqs[id]) && SeqStep(f.next.dispatch, f.seqs[id], f'.seqs[id])
  {
  }

  /** Another sequence's pending grant is another grant. */
  lemma AbortedOther(cfg: Config, f: FabricState, a: AbortPrepared, k: nat)
    requires a.auth.sequence in f.seqs && SeqOk(cfg, f, a.auth.sequence, f.seqs[a.auth.sequence])
      && AbortPending(f, a) != f
    requires k in f.seqs && k != a.auth.sequence && SeqOk(cfg, f, k, f.seqs[k])
    ensures var f' := AbortPending(f, a); f'.seqs[k] == f.seqs[k] && SeqOk(cfg, f', k, f'.seqs[k])
  {
  }

  lemma AbortPendingKeeps(cfg: Config, f: FabricState, a: AbortPrepared)
    requires Inv(cfg, f)
    ensures Inv(cfg, AbortPending(f, a)) && Steady(f, AbortPending(f, a))
  {
    var f', id := AbortPending(f, a), a.auth.sequence;
    if f' != f {
      assert SeqOk(cfg, f, id, f.seqs[id]);
      AbortedOk(cfg, f, a);
      forall k | k in f'.seqs && k != id ensures f'.seqs[k] == f.seqs[k] && SeqOk(cfg, f', k, f'.seqs[k]) {
        AbortedOther(cfg, f, a, k);
      }
      AbortPendingUnmoved(f, a);
    }
  }
}
