/** The states in which a sequence can stand between two operations. */
module Resting {
  import opened Types
  import opened Lifecycle
  import opened Fabric
  import G = Grouping
  import O = Operations
  import R = Recovery
  import N = Network
  import E = Executor
  import GR = Guarantees
  import FI = FabricInvariants
  import NS = NetworkSteps
  import PS = PumpSchedule

  /** Grouped and Reserved last only inside a scheduling pass; nothing moves to the other two. */
  predicate Transient(s: SequenceState) {
    s.Grouped? || s.Reserved? || s.Running? || s.Unnamed?
  }

  /** No sequence is in a transient state, and only ends are on record. */
  ghost predicate AtRest(f: FabricState) {
    && (forall id | id in f.seqs :: !Transient(f.seqs[id].state))
    && (forall id | id in f.terminal :: Terminal(f.terminal[id]))
  }

  // ---------------------------------------------------------------------------
  // Operations on single sequences

  lemma CancelRests(f: FabricState, id: nat)
    requires AtRest(f)
    ensures AtRest(Cancel(f, id))
  {
  }

  lemma SettleRests(f: FabricState, now: int, id: nat)
    requires AtRest(f)
    ensures AtRest(Settle(f, now, id))
  {
  }

  lemma {:induction false} AdvanceRests(f: FabricState, now: int, order: seq<nat>)
    requires AtRest(f)
    ensures AtRest(Advance(f, now, order))
  {
    if order != [] {
      AdvanceRests(f, now, order[..|order| - 1]);
      SettleRests(Advance(f, now, order[..|order| - 1]), now, order[|order| - 1]);
    }
  }

  lemma TryAgainRests(cfg: Config, f: FabricState, id: nat, named: nat)
    requires AtRest(f) && id in f.seqs
    ensures AtRest(TryAgain(cfg, f, id, named))
  {
  }

  lemma RetryRests(cfg: Config, f: FabricState, id: nat)
    requires AtRest(f)
    ensures AtRest(Retry(cfg, f, id))
  {
    if Retry(cfg, f, id) != f {
      var s := f.seqs[id];
      var s1 := if cfg.preserveCommitted then s else s.(tally := s.tally.(generated := s.tally.committed));
      TryAgainRests(cfg, Put(f, id, s1), id, id);
    }
  }

  lemma OrphanRests(f: FabricState, worker: nat, id: nat)
    requires AtRest(f)
    ensures AtRest(Orphan(f, worker, id))
  {
  }

  lemma {:induction false} OrphanAllRests(f: FabricState, worker: nat, order: seq<nat>)
    requires AtRest(f)
    ensures AtRest(OrphanAll(f, worker, order))
  {
    if order != [] {
      OrphanAllRests(f, worker, order[..|order| - 1]);
      OrphanRests(OrphanAll(f, worker, order[..|order| - 1]), worker, order[|order| - 1]);
    }
  }

  lemma RetryableRests(cfg: Config, f: FabricState, id: nat, named: nat)
    requires AtRest(f) && id in f.seqs
    ensures AtRest(RetryableOutcome(cfg, f, id, named))
  {
    var f1 := if named in f.seqs then PutReleased(f, named, f.seqs[named]) else f;
    assert AtRest(f1);
    TryAgainRests(cfg, Put(f1, id, FailedStep(cfg, f1.seqs[id])), id, named);
  }

  lemma OutcomeRests(cfg: Config, f: FabricState, id: nat, mo: MemberOutcome)
    requires AtRest(f) && id in f.seqs
    ensures AtRest(ApplyOutcome(cfg, f, id, mo))
  {
    var f' := OutcomeIs(cfg, f, id, mo);
    RetryableRests(cfg, f, id, mo.sequence);
    OtherOutcomeRests(f, id, mo.sequence);
    assert AtRest(f');
  }

  lemma OutcomeIs(cfg: Config, f: FabricState, id: nat, mo: MemberOutcome) returns (f': FabricState)
    requires id in f.seqs
    ensures f' == ApplyOutcome(cfg, f, id, mo)
    ensures || f' == f || f' == RetryableOutcome(cfg, f, id, mo.sequence) || f' == YieldOutcome(f, id)
            || f' == FatalOutcome(f, id, mo.sequence) || f' == EndOutcome(f, id, mo.sequence, Cancelled)
            || f' == EndOutcome(f, id, mo.sequence, DeadlineExpired)
  {
    f' := ApplyOutcome(cfg, f, id, mo);
  }

  lemma OtherOutcomeRests(f: FabricState, id: nat, named: nat)
    requires AtRest(f) && id in f.seqs
    ensures AtRest(YieldOutcome(f, id)) && AtRest(FatalOutcome(f, id, named))
    ensures AtRest(EndOutcome(f, id, named, Cancelled)) && AtRest(EndOutcome(f, id, named, DeadlineExpired))
  {
  }

  lemma LandedRests(f: FabricState, id: nat)
    requires AtRest(f) && id in f.seqs
    ensures AtRest(Landed(f, id)) && AtRest(Reconcile(f, id))
  {
  }

  lemma CompleteMemberRests(cfg: Config, f: FabricState, result: ExecutionResult, mo: MemberOutcome)
    requires AtRest(f)
    ensures AtRest(CompleteMember(cfg, f, result, mo))
  {
    if mo.sequence in f.seqs {
      LandedRests(f, mo.sequence);
      OutcomeRests(cfg, Landed(f, mo.sequence), mo.sequence, mo);
    }
  }

  lemma {:induction false} CompleteRests(cfg: Config, f: FabricState, result: ExecutionResult, n: nat)
    requires AtRest(f) && n <= |result.outcomes|
    ensures AtRest(Complete(cfg, f, result, n))
  {
    if n > 0 {
      CompleteRests(cfg, f, result, n - 1);
      CompleteMemberRests(cfg, Complete(cfg, f, result, n - 1), result, result.outcomes[n - 1]);
    }
  }

  lemma AbortRests(f: FabricState, a: AbortPrepared)
    requires AtRest(f)
    ensures AtRest(AbortPending(f, a))
  {
  }

  lemma AuthoriseMemberRests(cfg: Config, f: FabricState, pd: PreparedDecode, pm: PreparedMember)
    requires AtRest(f)
    ensures AtRest(AuthoriseMember(cfg, f, pd, pm).0)
  {
    if pm.auth.sequence in f.seqs {
      LandedRests(f, pm.auth.sequence);
      OutcomeRests(cfg, Landed(f, pm.auth.sequence), pm.auth.sequence, pm.outcome);
    }
  }

  lemma {:induction false} AuthoriseRests(cfg: Config, f: FabricState, pd: PreparedDecode, k: nat)
    requires AtRest(f) && k <= |pd.members|
    ensures AtRest(Authorise(cfg, f, pd, k).0)
  {
    if k > 0 {
      AuthoriseRests(cfg, f, pd, k - 1);
      AuthoriseMemberRests(cfg, Authorise(cfg, f, pd, k - 1).0, pd, pd.members[k - 1]);
    }
  }

  lemma FinaliseRests(cfg: Config, f: FabricState, rec: MemberReceipt)
    requires AtRest(f) && Finalises(f, rec)
    ensures AtRest(Finalise(cfg, f, rec))
  {
  }

  lemma {:induction false} ReceiveRests(cfg: Config, f: FabricState, recs: seq<MemberReceipt>)
    requires AtRest(f)
    ensures AtRest(Receive(cfg, f, recs).0)
  {
    if recs != [] {
      ReceiveRests(cfg, f, recs[..|recs| - 1]);
      var f1 := Receive(cfg, f, recs[..|recs| - 1]).0;
      if Finalises(f1, recs[|recs| - 1]) {
        FinaliseRests(cfg, f1, recs[|recs| - 1]);
      }
    }
  }

  lemma RestoreRests(f: FabricState, into: FabricState)
    requires AtRest(f)
    ensures AtRest(R.Restore(into, R.ImageOf(f)))
  {
  }

  // ---------------------------------------------------------------------------
  // A scheduling pass

  predicate Listed(ms: seq<G.Candidate>, id: nat) {
    exists c | c in ms :: c.sequence == id
  }

  predicate ListedIn(groups: seq<G.Group>, id: nat) {
    exists g | g in groups :: Listed(g.members, id)
  }

  lemma {:induction false} CollectRests(f: FabricState, order: seq<nat>, workerOrder: seq<nat>, score: map<nat, real>)
    requires AtRest(f)
    ensures AtRest(Collect(f, order, workerOrder, score).0)
  {
    if order != [] {
      CollectRests(f, order[..|order| - 1], workerOrder, score);
      CollectOneRests(Collect(f, order[..|order| - 1], workerOrder, score).0, order[|order| - 1], workerOrder, score);
    }
  }

  lemma CollectOneRests(f: FabricState, id: nat, workerOrder: seq<nat>, score: map<nat, real>)
    requires AtRest(f)
    ensures AtRest(CollectOne(f, id, workerOrder, score).0)
  {
  }

  lemma LastListed(ms: seq<G.Candidate>, id: nat)
    requires ms != []
    ensures Listed(ms, id) <==> Listed(ms[..|ms| - 1], id) || ms[|ms| - 1].sequence == id
  {
    assert ms == ms[..|ms| - 1] + [ms[|ms| - 1]];
  }

  lemma LastListedIn(groups: seq<G.Group>, id: nat)
    requires groups != []
    ensures ListedIn(groups, id) <==> ListedIn(groups[..|groups| - 1], id) || Listed(groups[|groups| - 1].members, id)
  {
    assert groups == groups[..|groups| - 1] + [groups[|groups| - 1]];
  }

  /** Only members become Grouped. */
  lemma {:induction false} MarkRests(f: FabricState, ms: seq<G.Candidate>, id: nat)
    requires id in f.seqs && (!Transient(f.seqs[id].state) || f.seqs[id].state.Grouped?)
    ensures var f' := MoveAll(f, ms, Grouped);
      && id in f'.seqs
      && (f'.seqs[id].state == f.seqs[id].state || (f'.seqs[id].state.Grouped? && Listed(ms, id)))
  {
    if ms != [] {
      MarkRests(f, ms[..|ms| - 1], id);
      LastListed(ms, id);
    }
  }

  lemma {:induction false} MarkGroupsRests(f: FabricState, groups: seq<G.Group>, id: nat)
    requires id in f.seqs && !Transient(f.seqs[id].state)
    ensures var f' := MoveGroups(f, groups, Grouped);
      && id in f'.seqs && (!Transient(f'.seqs[id].state) || (f'.seqs[id].state.Grouped? && ListedIn(groups, id)))
  {
    if groups != [] {
      MarkGroupsRests(f, groups[..|groups| - 1], id);
      MarkRests(MoveGroups(f, groups[..|groups| - 1], Grouped), groups[|groups| - 1].members, id);
      LastListedIn(groups, id);
    }
  }

  /** Putting a group back frees its members. */
  lemma {:induction false} PutBackRests(f: FabricState, ms: seq<G.Candidate>, id: nat)
    requires id in f.seqs && (!Transient(f.seqs[id].state) || f.seqs[id].state.Grouped?)
    ensures var f' := MoveAll(f, ms, Ready);
      id in f'.seqs && (!Transient(f'.seqs[id].state) || (f'.seqs[id].state == f.seqs[id].state && !Listed(ms, id)))
  {
    if ms != [] {
      PutBackRests(f, ms[..|ms| - 1], id);
      LastListed(ms, id);
    }
  }

  /** Sending a group out takes its members on to Dispatched. */
  lemma {:induction false} BindRests(f: FabricState, ms: seq<G.Candidate>, d: nat, worker: nat, rid: nat, id: nat)
    requires id in f.seqs && (!Transient(f.seqs[id].state) || f.seqs[id].state.Grouped?)
    ensures var f' := BindAll(f, ms, d, worker, rid);
      id in f'.seqs && (!Transient(f'.seqs[id].state) || (f'.seqs[id].state == f.seqs[id].state && !Listed(ms, id)))
  {
    if ms != [] {
      BindRests(f, ms[..|ms| - 1], d, worker, rid, id);
      LastListed(ms, id);
    }
  }

  lemma DispatchGroupRests(cfg: Config, f: FabricState, workerOrder: seq<nat>, g: G.Group, id: nat)
    requires id in f.seqs && (!Transient(f.seqs[id].state) || f.seqs[id].state.Grouped?)
    ensures var f' := DispatchGroup(cfg, f, workerOrder, g).0;
      id in f'.seqs
        && (!Transient(f'.seqs[id].state) || (f'.seqs[id].state == f.seqs[id].state && !Listed(g.members, id)))
  {
    PutBackRests(f, g.members, id);
    var chosen := Place(f, workerOrder, g.key);
    if chosen.Some? && chosen.value in f.workers {
      var w := f.workers[chosen.value];
      BindRests(Booked(f, w, g), g.members, f.next.dispatch, w.id, f.memory.nextReservation, id);
    }
  }

  lemma {:induction false} DispatchAllRests(cfg: Config, f: FabricState, workerOrder: seq<nat>, groups: seq<G.Group>,
                                            id: nat)
    requires id in f.seqs && (!Transient(f.seqs[id].state) || f.seqs[id].state.Grouped?)
    ensures var f' := DispatchAll(cfg, f, workerOrder, groups).0;
      && id in f'.seqs
      && (!Transient(f'.seqs[id].state) || (f'.seqs[id].state == f.seqs[id].state && !ListedIn(groups, id)))
  {
    if groups != [] {
      DispatchAllRests(cfg, f, workerOrder, groups[..|groups| - 1], id);
      DispatchGroupRests(cfg, DispatchAll(cfg, f, workerOrder, groups[..|groups| - 1]).0, workerOrder,
        groups[|groups| - 1], id);
      LastListedIn(groups, id);
    }
  }

  lemma ScheduleRests(cfg: Config, f: FabricState, now: int, order: seq<nat>, workerOrder: seq<nat>,
                      score: map<nat, real>)
    requires AtRest(f)
    ensures AtRest(Schedule(cfg, f, now, order, workerOrder, score).0)
  {
    var f1 := Advance(f, now, order);
    AdvanceRests(f, now, order);
    CollectRests(f1, order, workerOrder, score);
    var (f2, cs) := Collect(f1, order, workerOrder, score);
    PassRests(cfg, f2, workerOrder, G.FormGroups(cfg.limits, cfg.keyText, cs));
  }

  lemma PassRests(cfg: Config, f: FabricState, workerOrder: seq<nat>, groups: seq<G.Group>)
    requires AtRest(f)
    ensures AtRest(DispatchAll(cfg, MoveGroups(f, groups, Grouped), workerOrder, groups).0)
  {
    var f1 := MoveGroups(f, groups, Grouped);
    var f2 := DispatchAll(cfg, f1, workerOrder, groups).0;
    MarkKeys(f, groups);
    DispatchKeys(cfg, f1, workerOrder, groups);
    forall id | id in f2.seqs ensures !Transient(f2.seqs[id].state) {
      MarkGroupsRests(f, groups, id);
      DispatchAllRests(cfg, f1, workerOrder, groups, id);
    }
  }

  lemma {:induction false} MoveKeys(f: FabricState, ms: seq<G.Candidate>, to: SequenceState)
    ensures MoveAll(f, ms, to).seqs.Keys == f.seqs.Keys && MoveAll(f, ms, to).terminal == f.terminal
  {
    if ms != [] {
      MoveKeys(f, ms[..|ms| - 1], to);
    }
  }

  lemma {:induction false} MarkKeys(f: FabricState, groups: seq<G.Group>)
    ensures var f' := MoveGroups(f, groups, Grouped); f'.seqs.Keys == f.seqs.Keys && f'.terminal == f.terminal
  {
    if groups != [] {
      MarkKeys(f, groups[..|groups| - 1]);
      MoveKeys(MoveGroups(f, groups[..|groups| - 1], Grouped), groups[|groups| - 1].members, Grouped);
    }
  }

  lemma GroupKeys(cfg: Config, f: FabricState, workerOrder: seq<nat>, g: G.Group)
    ensures var f' := DispatchGroup(cfg, f, workerOrder, g).0; f'.seqs.Keys == f.seqs.Keys && f'.terminal == f.terminal
  {
    MoveKeys(f, g.members, Ready);
    var chosen := Place(f, workerOrder, g.key);
    if chosen.Some? && chosen.value in f.workers {
      var w := f.workers[chosen.value];
      PS.BindKeys(Booked(f, w, g), g.members, f.next.dispatch, w.id, f.memory.nextReservation);
    }
  }

  lemma {:induction false} DispatchKeys(cfg: Config, f: FabricState, workerOrder: seq<nat>, groups: seq<G.Group>)
    ensures var f' := DispatchAll(cfg, f, workerOrder, groups).0;
      f'.seqs.Keys == f.seqs.Keys && f'.terminal == f.terminal
  {
    if groups != [] {
      DispatchKeys(cfg, f, workerOrder, groups[..|groups| - 1]);
      GroupKeys(cfg, DispatchAll(cfg, f, workerOrder, groups[..|groups| - 1]).0, workerOrder, groups[|groups| - 1]);
    }
  }

  // ---------------------------------------------------------------------------
  // Whole runs

  lemma OperateRests(cfg: Config, f: FabricState, op: O.Operation)
    requires AtRest(f)
    ensures AtRest(O.Operate(cfg, f, op))
  {
    match op
    case Submit(req, workerOrder, admit) =>
    case Cancel(id) => CancelRests(f, id);
    case Retry(id) => RetryRests(cfg, f, id);
    case Register(worker) =>
    case MarkWorkerDead(dead, order) => DeadRests(f, dead, order);
    case RollEpoch =>
    case Advance(now, order) => AdvanceRests(f, now, order);
    case Complete(result) => CompleteRests(cfg, f, result, |result.outcomes|);
    case AbortPending(abort) => AbortRests(f, abort);
    case Restart(inPlace) => RestoreRests(f, if inPlace then f else Start);
  }

  lemma DeadRests(f: FabricState, worker: nat, order: seq<nat>)
    requires AtRest(f)
    ensures AtRest(MarkWorkerDead(f, worker, order))
  {
    var f1 := if worker in f.workers
              then f.(workers := f.workers[worker := f.workers[worker].(health := FAILED, active := 0)]) else f;
    OrphanAllRests(f1, worker, order);
  }

  lemma ActionRests(cfg: Config, num: E.Numerics, n: N.Net, a: N.Action)
    requires AtRest(n.fabric)
    ensures AtRest(N.Apply(cfg, num, n, a).fabric)
  {
    match a
    case Local(op) => OperateRests(cfg, n.fabric, op);
    case Schedule(now, order, workerOrder, score) => ScheduleRests(cfg, n.fabric, now, order, workerOrder, score);
    case DeliverPrepared(pd) => AuthoriseRests(cfg, n.fabric, pd, |pd.members|);
    case DeliverReceipts(recs) => ReceiveRests(cfg, n.fabric, recs);
    case _ =>
  }

  /**
   Between operations no sequence is ever Grouped, Reserved, Running or in a state without a
   name, and every end on record is a terminal state.
   */
  lemma {:induction false} RunRests(cfg: Config, num: E.Numerics, actions: seq<N.Action>)
    ensures AtRest(N.Run(cfg, num, actions).fabric)
  {
    if actions != [] {
      RunRests(cfg, num, actions[..|actions| - 1]);
      ActionRests(cfg, num, N.Run(cfg, num, actions[..|actions| - 1]), actions[|actions| - 1]);
    }
  }

  /** Over whole runs, cancelling stops a sequence exactly when its state is not RetryableFailure. */
  lemma CancelStops(cfg: Config, num: E.Numerics, actions: seq<N.Action>, id: nat)
    ensures var f := N.Run(cfg, num, actions).fabric;
      id in f.seqs ==>
        && id in Cancel(f, id).seqs
        && (Stopped(Cancel(f, id).seqs[id].state) <==> !f.seqs[id].state.RetryableFailure?)
  {
    var f := N.Run(cfg, num, actions).fabric;
    RunRests(cfg, num, actions);
    if id in f.seqs {
      GR.CancelStops(f, id);
    }
  }

  /** Over whole runs, the end on record is the sequence's state exactly when that state is terminal. */
  lemma RecordIsState(cfg: Config, num: E.Numerics, actions: seq<N.Action>, id: nat)
    ensures var f := N.Run(cfg, num, actions).fabric;
      id in f.seqs ==>
        (id in f.terminal && f.terminal[id] == f.seqs[id].state <==> Terminal(f.seqs[id].state))
  {
    var n := N.Run(cfg, num, actions);
    RunRests(cfg, num, actions);
    NS.RunKeeps(cfg, num, actions);
    if id in n.fabric.seqs {
      assert FI.SeqOk(cfg, n.fabric, id, n.fabric.seqs[id]);
    }
  }
}
