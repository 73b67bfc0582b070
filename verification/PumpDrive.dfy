/**
 Driving one request keeps the two sides in agreement. The four phases of `PumpGroup` are put
 together for one request, and then read off for every sequence: a member of the request has
 one more token on both sides and equal digests, or its acceptance key is the one its
 sequence accepted last and both sides are where they were; the other sequences have not
 been touched by either side.
 */
module PumpDrive {
  import opened Types
  import opened Pump
  import opened PumpGroup
  import F = Fabric
  import FI = FabricInvariants
  import FS = FabricSteps
  import E = Executor

  /** The prepared group answers its request. */
  predicate AnswersRequest(req: ExecutionRequest, pd: PreparedDecode) {
    pd.dispatch == req.dispatch && pd.epoch == req.epoch && pd.worker == req.worker && pd.workerBoot == req.workerBoot
  }

  /** Reply `i` is about member `i`: it names what member `i` staged, and grants it what it reported. */
  predicate Addresses(req: ExecutionRequest, pd: PreparedDecode, out: seq<F.Reply>, i: nat)
    requires i < |req.members| == |pd.members| == |out|
  {
    && StateOf(out[i]) == req.members[i].state.id && ProposalOf(out[i]) == pd.members[i].proposal
    && pd.members[i].auth == E.AuthorityOf(req, req.members[i])
    && (out[i].SendGrant? ==>
          out[i].grant.auth == pd.members[i].auth && out[i].grant.post == pd.members[i].post)
  }

  /** A member staged for its sequence is due for whatever it was answered. */
  lemma ReplyDue(cfg: F.Config, num: E.Numerics, f: F.FabricState, f1: F.FabricState, e: E.ExecutorState,
                 req: ExecutionRequest, pd: PreparedDecode, out: seq<F.Reply>, i: nat)
    requires i < |req.members| == |pd.members| == |out| && AnswersRequest(req, pd)
    requires req.members[i].sequence in f.seqs && AnsweredAt(cfg, f, f1, pd, out, i)
    requires StagedFor(num, e, req, f.seqs[req.members[i].sequence].tally, req.members[i], pd.members[i])
    requires GrantsFresh(f, e) && pd.members[i].proposal !in e.consumed
    ensures Due(e, out[i]) && Addresses(req, pd, out, i)
  {
  }

  lemma RepliesDiffer(cfg: F.Config, f: F.FabricState, f1: F.FabricState, req: ExecutionRequest, pd: PreparedDecode,
                      out: seq<F.Reply>, i: nat, j: nat)
    requires OwnStates(f) && Drivable(f, req) && i < j < |req.members| == |pd.members| == |out|
    requires AnsweredUpTo(cfg, f, f1, req, pd, out, |req.members|)
    requires Addresses(req, pd, out, i) && Addresses(req, pd, out, j)
    requires pd.members[i].proposal != pd.members[j].proposal
    ensures Differ(out[i], out[j])
  {
    StatesDiffer(f, req, i, j);
  }

  lemma GroupSettleable(cfg: F.Config, num: E.Numerics, p: Pair, f1: F.FabricState, e: E.ExecutorState,
                        req: ExecutionRequest, pd: PreparedDecode, out: seq<F.Reply>)
    requires OwnStates(p.fabric) && GrantsFresh(p.fabric, p.executor) && ProposalsFresh(p.executor)
    requires Drivable(p.fabric, req) && |pd.members| == |req.members| && AnswersRequest(req, pd)
    requires PreparedUpTo(num, p.fabric, p.executor, e, req, pd.members, |req.members|)
    requires AnsweredUpTo(cfg, p.fabric, f1, req, pd, out, |req.members|)
    ensures Settleable(e, out) && forall i | 0 <= i < |req.members| :: Addresses(req, pd, out, i)
  {
    forall i | 0 <= i < |req.members| ensures Due(e, out[i]) && Addresses(req, pd, out, i) {
      assert OutOn(p.fabric, req, req.members[i]);
      assert StagedFor(num, e, req, p.fabric.seqs[req.members[i].sequence].tally, req.members[i], pd.members[i]);
      ReplyDue(cfg, num, p.fabric, f1, e, req, pd, out, i);
    }
    forall i, j | 0 <= i < j < |req.members| ensures Differ(out[i], out[j]) {
      RepliesDiffer(cfg, p.fabric, f1, req, pd, out, i, j);
    }
  }

  lemma GrantAwaits(f: F.FabricState, f1: F.FabricState, req: ExecutionRequest, pd: PreparedDecode, out: seq<F.Reply>,
                    i: nat, now: int)
    requires i < |pd.members| == |req.members| == |out| && GrantedAt(f, f1, pd, out, i)
    requires OutOn(f, req, req.members[i]) && AnswersRequest(req, pd) && Addresses(req, pd, out, i)
    ensures F.Finalises(f1, ReceiptOn(out[i].grant, now))
    ensures ReceiptOn(out[i].grant, now).auth.sequence == req.members[i].sequence
  {
  }

  lemma ReceiptAwaited(cfg: F.Config, f: F.FabricState, f1: F.FabricState, req: ExecutionRequest, pd: PreparedDecode,
                       out: seq<F.Reply>, now: int, j: nat) returns (i: nat)
    requires Drivable(f, req) && |pd.members| == |req.members| && AnswersRequest(req, pd)
    requires AnsweredUpTo(cfg, f, f1, req, pd, out, |req.members|) && j < |ReceiptsOf(out, now)|
    requires forall k | 0 <= k < |req.members| :: Addresses(req, pd, out, k)
    ensures i < |out| && out[i].SendGrant? && PlaceOf(out, now, i) == j
    ensures ReceiptsOf(out, now)[j] == ReceiptOn(out[i].grant, now) && F.Finalises(f1, ReceiptsOf(out, now)[j])
    ensures ReceiptsOf(out, now)[j].auth.sequence == req.members[i].sequence
  {
    i := ReceiptFrom(out, now, j);
    assert AnsweredAt(cfg, f, f1, pd, out, i) && OutOn(f, req, req.members[i]) && Addresses(req, pd, out, i);
    GrantAwaits(f, f1, req, pd, out, i, now);
  }

  lemma GroupAwaited(cfg: F.Config, f: F.FabricState, f1: F.FabricState, req: ExecutionRequest, pd: PreparedDecode,
                     out: seq<F.Reply>, now: int)
    requires Drivable(f, req) && |pd.members| == |req.members| && AnswersRequest(req, pd)
    requires AnsweredUpTo(cfg, f, f1, req, pd, out, |req.members|)
    requires forall k | 0 <= k < |req.members| :: Addresses(req, pd, out, k)
    ensures AllAwaited(f1, ReceiptsOf(out, now))
  {
    var recs := ReceiptsOf(out, now);
    forall j | 0 <= j < |recs| ensures F.Finalises(f1, recs[j]) {
      var i := ReceiptAwaited(cfg, f, f1, req, pd, out, now, j);
    }
    forall j, k | 0 <= j < k < |recs|
      ensures recs[j].auth.sequence != recs[k].auth.sequence && recs[j].grant != recs[k].grant
    {
      var a := ReceiptAwaited(cfg, f, f1, req, pd, out, now, j);
      var b := ReceiptAwaited(cfg, f, f1, req, pd, out, now, k);
      OtherReceipts(f, f1, cfg, req, pd, out, a, b);
    }
  }

  lemma OtherReceipts(f: F.FabricState, f1: F.FabricState, cfg: F.Config, req: ExecutionRequest, pd: PreparedDecode,
                      out: seq<F.Reply>, a: nat, b: nat)
    requires Drivable(f, req) && |pd.members| == |req.members|
      && AnsweredUpTo(cfg, f, f1, req, pd, out, |req.members|)
    requires a < |out| && b < |out| && a != b && out[a].SendGrant? && out[b].SendGrant?
    ensures req.members[a].sequence != req.members[b].sequence && out[a].grant.grant != out[b].grant.grant
  {
    if a < b {
      assert out[a].grant.grant < out[b].grant.grant;
    } else {
      assert out[b].grant.grant < out[a].grant.grant;
      assert req.members[b].sequence != req.members[a].sequence;
    }
  }

  /** One more token on both sides. */
  predicate Gained(s: F.Sequence, t: F.Sequence) {
    && t.kv == s.kv && t.attempt == s.attempt && t.tally.generated == s.tally.generated + 1 && t.tally.digestEstablished
    && t.tally.budget == s.tally.budget.(generated := s.tally.budget.generated + 1)
  }

  lemma MemberDone(cfg: F.Config, num: E.Numerics, e1: E.ExecutorState, e2: E.ExecutorState, req: ExecutionRequest,
                   m: MemberSpec, s: F.Sequence, t: F.Sequence, pm: PreparedMember, rec: MemberReceipt)
    requires StagedFor(num, e1, req, s.tally, m, pm) && m.state.id == s.kv.id
    requires !s.tally.budget.Exhausted() && s.tally.budget.generated == s.tally.generated
    requires t.tally == F.Grown(cfg, s.tally, rec) && t.kv == s.kv && t.attempt == s.attempt && t.pending.None?
      && rec.post == pm.post
    requires m.state.id in e2.states && e2.states[m.state.id] == E.Promote(e1.states[m.state.id])
    ensures InSync(num, t, e2) && Gained(s, t)
  {
  }

  lemma MemberHeld(num: E.Numerics, e1: E.ExecutorState, e2: E.ExecutorState, req: ExecutionRequest,
                   m: MemberSpec, s: F.Sequence, t: F.Sequence, pm: PreparedMember)
    requires StagedFor(num, e1, req, s.tally, m, pm) && m.state.id == s.kv.id && Held(s, t)
    requires m.state.id in e2.states && e2.states[m.state.id] == e1.states[m.state.id].(tentative := None)
    ensures InSync(num, t, e2)
  {
  }

  // ---------------------------------------------------------------------------
  // One request

  /** The stations a driven request passes. */
  datatype Trip = Trip(staged: E.ExecutorState, pd: PreparedDecode, granted: F.FabricState, replies: seq<F.Reply>,
                       settled: E.ExecutorState, recs: seq<MemberReceipt>, final: F.FabricState)

  /** Every member is staged, and every member is answered. */
  ghost predicate Ascent(cfg: F.Config, num: E.Numerics, p: Pair, req: ExecutionRequest, t: Trip) {
    && Drivable(p.fabric, req) && |t.pd.members| == |req.members| && AnswersRequest(req, t.pd)
    && PreparedUpTo(num, p.fabric, p.executor, t.staged, req, t.pd.members, |req.members|)
    && AnsweredUpTo(cfg, p.fabric, t.granted, req, t.pd, t.replies, |req.members|)
    && (forall i | 0 <= i < |req.members| :: Addresses(req, t.pd, t.replies, i))
  }

  /** Every reply is settled, and every receipt is finalised. */
  ghost predicate Descent(cfg: F.Config, t: Trip, now: int) {
    && Settleable(t.staged, t.replies) && SettledUpTo(t.staged, t.settled, t.replies, |t.replies|)
    && t.recs == ReceiptsOf(t.replies, now) && AllAwaited(t.granted, t.recs)
    && FinalisedUpTo(cfg, t.granted, t.final, t.recs, |t.recs|)
  }

  lemma AgreeingMembers(cfg: F.Config, num: E.Numerics, p: Pair, req: ExecutionRequest)
    requires Synced(cfg, num, p) && Drivable(p.fabric, req)
    ensures forall i | 0 <= i < |req.members| ::
      OutOn(p.fabric, req, req.members[i])
        && Agrees(num, p.fabric.seqs[req.members[i].sequence].tally, p.executor, req.members[i].state.id)
  {
    forall i | 0 <= i < |req.members|
      ensures OutOn(p.fabric, req, req.members[i])
        && Agrees(num, p.fabric.seqs[req.members[i].sequence].tally, p.executor, req.members[i].state.id)
    {
      assert OutOn(p.fabric, req, req.members[i]);
      assert InSync(num, p.fabric.seqs[req.members[i].sequence], p.executor);
    }
  }

  lemma HonestMembers(num: E.Numerics, f: F.FabricState, req: ExecutionRequest, e: E.ExecutorState, pd: PreparedDecode)
    requires Drivable(f, req) && |pd.members| == |req.members| && StagedUpTo(num, f, req, e, pd.members, |req.members|)
    ensures forall i | 0 <= i < |pd.members| :: FS.Honest(pd.members[i])
  {
    forall i | 0 <= i < |pd.members| ensures FS.Honest(pd.members[i]) {
      assert StagedFor(num, e, req, f.seqs[req.members[i].sequence].tally, req.members[i], pd.members[i]);
    }
  }

  lemma PrepareTrip(num: E.Numerics, f: F.FabricState, e: E.ExecutorState, req: ExecutionRequest, ns: MemberSpec -> int)
    returns (e1: E.ExecutorState, pd: PreparedDecode)
    requires OwnStates(f) && Drivable(f, req)
    requires forall i | 0 <= i < |req.members| ::
      OutOn(f, req, req.members[i]) && Agrees(num, f.seqs[req.members[i].sequence].tally, e, req.members[i].state.id)
    ensures E.Prepare(num, e, req, ns) == (e1, Ok(pd))
    ensures |pd.members| == |req.members| && AnswersRequest(req, pd)
      && PreparedUpTo(num, f, e, e1, req, pd.members, |req.members|)
  {
    PreparePhase(num, f, e, req, ns, |req.members|);
    e1 := E.Prepare(num, e, req, ns).0;
    pd := E.Prepare(num, e, req, ns).1.value;
  }

  lemma SettleTrip(e: E.ExecutorState, out: seq<F.Reply>, now: int) returns (e2: E.ExecutorState)
    requires Settleable(e, out)
    ensures Settle(e, out, now) == (e2, ReceiptsOf(out, now)) && SettledUpTo(e, e2, out, |out|)
  {
    e2 := SettlePhase(e, out, now, |out|);
    assert out[..|out|] == out;
  }

  lemma ReceiveTrip(cfg: F.Config, f: F.FabricState, recs: seq<MemberReceipt>) returns (f': F.FabricState)
    requires AllAwaited(f, recs)
    ensures F.Receive(cfg, f, recs).0 == f' && FinalisedUpTo(cfg, f, f', recs, |recs|)
  {
    ReceivePhase(cfg, f, recs, |recs|);
    assert recs[..|recs|] == recs;
    f' := F.Receive(cfg, f, recs).0;
  }

  /** The trip is what driving the request does. */
  ghost predicate Travels(cfg: F.Config, num: E.Numerics, p: Pair, req: ExecutionRequest, c: Cycle, t: Trip) {
    && E.Prepare(num, p.executor, req, c.ns) == (t.staged, Ok(t.pd))
    && F.Authorise(cfg, p.fabric, t.pd, |t.pd.members|) == (t.granted, t.replies)
    && Settle(t.staged, t.replies, c.now) == (t.settled, t.recs)
    && F.Receive(cfg, t.granted, t.recs).0 == t.final
  }

  lemma TravelsDrive(cfg: F.Config, num: E.Numerics, p: Pair, req: ExecutionRequest, c: Cycle, t: Trip)
    requires Travels(cfg, num, p, req, c, t)
    ensures Drive(cfg, num, p, req, c) == Pair(t.final, t.settled)
  {
  }

  /** Every request of a cycle passes all stations. */
  lemma DriveTrip(cfg: F.Config, num: E.Numerics, p: Pair, req: ExecutionRequest, c: Cycle) returns (t: Trip)
    requires OwnStates(p.fabric) && GrantsFresh(p.fabric, p.executor) && ProposalsFresh(p.executor)
      && Drivable(p.fabric, req)
    requires forall i | 0 <= i < |req.members| ::
      OutOn(p.fabric, req, req.members[i])
        && Agrees(num, p.fabric.seqs[req.members[i].sequence].tally, p.executor, req.members[i].state.id)
    requires forall i | 0 <= i < |req.members| :: Ripe(p.fabric, req.members[i].sequence)
    ensures Ascent(cfg, num, p, req, t) && Descent(cfg, t, c.now) && Travels(cfg, num, p, req, c, t)
  {
    var e1, pd := PrepareTrip(num, p.fabric, p.executor, req, c.ns);
    var f1, out := AuthorisePhase(cfg, num, p.fabric, e1, req, pd, |req.members|);
    GroupSettleable(cfg, num, p, f1, e1, req, pd, out);
    var e2 := SettleTrip(e1, out, c.now);
    GroupAwaited(cfg, p.fabric, f1, req, pd, out, c.now);
    var f' := ReceiveTrip(cfg, f1, ReceiptsOf(out, c.now));
    t := Trip(e1, pd, f1, out, e2, ReceiptsOf(out, c.now), f');
  }

  lemma TripInv(cfg: F.Config, num: E.Numerics, p: Pair, req: ExecutionRequest, t: Trip)
    requires FI.Inv(cfg, p.fabric) && Drivable(p.fabric, req) && |t.pd.members| == |req.members|
    requires StagedUpTo(num, p.fabric, req, t.staged, t.pd.members, |req.members|)
    requires t.granted == F.Authorise(cfg, p.fabric, t.pd, |t.pd.members|).0
      && t.final == F.Receive(cfg, t.granted, t.recs).0
    ensures FI.Inv(cfg, t.final)
  {
    HonestMembers(num, p.fabric, req, t.staged, t.pd);
    AuthoriseInv(cfg, p.fabric, t.pd, |t.pd.members|);
    ReceiveInv(cfg, t.granted, t.recs);
  }

  // ---------------------------------------------------------------------------
  // Members

  /** What becomes of a member: one token, or nothing when its key is the one accepted last. */
  predicate Moved(cfg: F.Config, f: F.FabricState, f': F.FabricState, req: ExecutionRequest, m: MemberSpec) {
    && m.sequence in f.seqs && m.sequence in f'.seqs
    && var s, t := f.seqs[m.sequence], f'.seqs[m.sequence];
    if Clashes(cfg, s.tally, E.AuthorityOf(req, m), s.tally.generated) then Held(s, t) else Gained(s, t)
  }

  lemma FinalMember(cfg: F.Config, f: F.FabricState, f1: F.FabricState, f': F.FabricState, pd: PreparedDecode,
                    out: seq<F.Reply>, rec: MemberReceipt, i: nat, now: int)
    requires i < |pd.members| && i < |out| && GrantedAt(f, f1, pd, out, i) && rec == ReceiptOn(out[i].grant, now)
    requires FinalAt(cfg, f1, f', rec) && out[i].grant.auth == pd.members[i].auth
    ensures var id := pd.members[i].auth.sequence;
      id in f.seqs && id in f'.seqs && f'.seqs[id].tally == F.Grown(cfg, f.seqs[id].tally, rec)
        && f'.seqs[id].kv == f.seqs[id].kv && f'.seqs[id].attempt == f.seqs[id].attempt && f'.seqs[id].pending.None?
        && rec.post == out[i].grant.post
  {
  }

  lemma GrantedMember(cfg: F.Config, num: E.Numerics, p: Pair, req: ExecutionRequest, t: Trip, now: int, i: nat)
    requires Ascent(cfg, num, p, req, t) && Descent(cfg, t, now) && i < |req.members| && t.replies[i].SendGrant?
    requires OutOn(p.fabric, req, req.members[i]) && FI.Lockstep(cfg, p.fabric.seqs[req.members[i].sequence])
    requires GrantedAt(p.fabric, t.granted, t.pd, t.replies, i)
    ensures var id := req.members[i].sequence;
      && id in t.final.seqs && InSync(num, t.final.seqs[id], t.settled) && Gained(p.fabric.seqs[id], t.final.seqs[id])
  {
    var m, r := req.members[i], t.replies[i];
    assert StagedFor(num, t.staged, req, p.fabric.seqs[m.sequence].tally, m, t.pd.members[i]);
    assert Addresses(req, t.pd, t.replies, i) && DecidedAt(t.staged, t.settled, r);
    ReceiptAt(t.replies, now, i);
    var rec := t.recs[PlaceOf(t.replies, now, i)];
    FinalMember(cfg, p.fabric, t.granted, t.final, t.pd, t.replies, rec, i, now);
    MemberDone(cfg, num, t.staged, t.settled, req, m, p.fabric.seqs[m.sequence], t.final.seqs[m.sequence],
               t.pd.members[i], rec);
  }

  /** No receipt is for a member that was refused. */
  lemma NoReceiptFor(cfg: F.Config, num: E.Numerics, p: Pair, req: ExecutionRequest, t: Trip, now: int, id: nat)
    requires Ascent(cfg, num, p, req, t) && Descent(cfg, t, now)
    requires forall i | 0 <= i < |req.members| && t.replies[i].SendGrant? :: req.members[i].sequence != id
    ensures NoReceipt(t.recs, |t.recs|, id)
  {
    forall j | 0 <= j < |t.recs| ensures t.recs[j].auth.sequence != id {
      var i := ReceiptAwaited(cfg, p.fabric, t.granted, req, t.pd, t.replies, now, j);
    }
  }

  lemma RefusedMember(cfg: F.Config, num: E.Numerics, p: Pair, req: ExecutionRequest, t: Trip, now: int, i: nat)
    requires Ascent(cfg, num, p, req, t) && Descent(cfg, t, now) && i < |req.members| && t.replies[i].SendAbort?
    requires OutOn(p.fabric, req, req.members[i]) && RefusedAt(p.fabric, t.granted, t.pd, t.replies, i)
    ensures var id := req.members[i].sequence;
      && id in t.final.seqs && InSync(num, t.final.seqs[id], t.settled) && Held(p.fabric.seqs[id], t.final.seqs[id])
  {
    var m := req.members[i];
    assert StagedFor(num, t.staged, req, p.fabric.seqs[m.sequence].tally, m, t.pd.members[i]);
    assert Addresses(req, t.pd, t.replies, i) && DecidedAt(t.staged, t.settled, t.replies[i]);
    forall j | 0 <= j < |req.members| && t.replies[j].SendGrant? ensures req.members[j].sequence != m.sequence {
      if j < i {
        assert req.members[j].sequence != req.members[i].sequence;
      } else {
        assert req.members[i].sequence != req.members[j].sequence;
      }
    }
    NoReceiptFor(cfg, num, p, req, t, now, m.sequence);
    MemberHeld(num, t.staged, t.settled, req, m, p.fabric.seqs[m.sequence], t.final.seqs[m.sequence],
               t.pd.members[i]);
  }

  /** The member moved as it should and is in agreement. */
  predicate MemberUp(cfg: F.Config, num: E.Numerics, p: Pair, p': Pair, req: ExecutionRequest, m: MemberSpec) {
    Moved(cfg, p.fabric, p'.fabric, req, m) && InSync(num, p'.fabric.seqs[m.sequence], p'.executor)
      && p'.fabric.seqs[m.sequence].kv == p.fabric.seqs[m.sequence].kv
  }

  lemma TripMember(cfg: F.Config, num: E.Numerics, p: Pair, req: ExecutionRequest, t: Trip, now: int, i: nat)
    requires FI.Inv(cfg, p.fabric) && i < |req.members|
    requires Ascent(cfg, num, p, req, t) && Descent(cfg, t, now)
    ensures MemberUp(cfg, num, p, Pair(t.final, t.settled), req, req.members[i])
  {
    var m := req.members[i];
    assert OutOn(p.fabric, req, m) && Addresses(req, t.pd, t.replies, i);
    assert AnsweredAt(cfg, p.fabric, t.granted, t.pd, t.replies, i);
    assert StagedFor(num, t.staged, req, p.fabric.seqs[m.sequence].tally, m, t.pd.members[i]);
    FI.LockstepOf(cfg, p.fabric, m.sequence);
    if Clashes(cfg, p.fabric.seqs[m.sequence].tally, t.pd.members[i].auth, t.pd.members[i].before) {
      RefusedMember(cfg, num, p, req, t, now, i);
    } else {
      GrantedMember(cfg, num, p, req, t, now, i);
    }
  }

  // ---------------------------------------------------------------------------
  // The others

  predicate StaysPut(num: E.Numerics, p: Pair, p': Pair, id: nat) {
    && id in p.fabric.seqs && id in p'.fabric.seqs
    && InSync(num, p'.fabric.seqs[id], p'.executor) && p'.fabric.seqs[id] == p.fabric.seqs[id]
  }

  /** A sequence that is not in the request is left alone by the coordinator. */
  lemma OtherSequence(cfg: F.Config, num: E.Numerics, p: Pair, req: ExecutionRequest, t: Trip, now: int, id: nat)
    requires Ascent(cfg, num, p, req, t) && Descent(cfg, t, now)
    requires id in p.fabric.seqs && Apart(req, |req.members|, id)
    ensures id in t.final.seqs && t.final.seqs[id] == p.fabric.seqs[id]
  {
    NoReceiptFor(cfg, num, p, req, t, now, id);
  }

  /** And its state is left alone by the executor. */
  lemma OtherState(cfg: F.Config, num: E.Numerics, p: Pair, req: ExecutionRequest, t: Trip, now: int, id: nat)
    requires OwnStates(p.fabric) && Ascent(cfg, num, p, req, t) && Descent(cfg, t, now)
    requires id in p.fabric.seqs && Apart(req, |req.members|, id)
    ensures SameState(p.executor, t.settled, p.fabric.seqs[id].kv.id)
  {
    var sid := p.fabric.seqs[id].kv.id;
    forall i | 0 <= i < |req.members| ensures req.members[i].state.id != sid && StateOf(t.replies[i]) != sid {
      assert OutOn(p.fabric, req, req.members[i]) && Addresses(req, t.pd, t.replies, i);
    }
    assert Aside(req, |req.members|, sid) && Beside(t.replies, |req.members|, sid);
    assert SameState(p.executor, t.staged, sid) && SameState(t.staged, t.settled, sid);
  }

  lemma TripOther(cfg: F.Config, num: E.Numerics, p: Pair, req: ExecutionRequest, t: Trip, now: int, id: nat)
    requires OwnStates(p.fabric) && id in p.fabric.seqs && InSync(num, p.fabric.seqs[id], p.executor)
      && Apart(req, |req.members|, id)
    requires Ascent(cfg, num, p, req, t) && Descent(cfg, t, now)
    ensures StaysPut(num, p, Pair(t.final, t.settled), id)
  {
    OtherSequence(cfg, num, p, req, t, now, id);
    OtherState(cfg, num, p, req, t, now, id);
  }

  lemma FreshAfter(cfg: F.Config, num: E.Numerics, p: Pair, req: ExecutionRequest, t: Trip, now: int)
    requires GrantsFresh(p.fabric, p.executor) && ProposalsFresh(p.executor)
    requires Ascent(cfg, num, p, req, t) && Descent(cfg, t, now)
    ensures GrantsFresh(t.final, t.settled) && ProposalsFresh(t.settled)
  {
    forall g | g in t.settled.receipts ensures g < t.final.next.grant {
      if g !in t.staged.receipts {
        var i :| 0 <= i < |t.replies| && t.replies[i].SendGrant? && t.replies[i].grant.grant == g;
        assert AnsweredAt(cfg, p.fabric, t.granted, t.pd, t.replies, i);
      }
    }
    forall x | x in t.settled.consumed ensures x <= t.settled.nextProposal {
      if x !in t.staged.consumed {
        var i :| 0 <= i < |t.replies| && ProposalOf(t.replies[i]) == x;
        assert Addresses(req, t.pd, t.replies, i);
      }
    }
  }

  /** What driving one request does to a pair in agreement. */
  ghost predicate Driven(cfg: F.Config, num: E.Numerics, p: Pair, p': Pair, req: ExecutionRequest) {
    && Synced(cfg, num, p') && Framed(p.fabric, p'.fabric)
    && (forall i | 0 <= i < |req.members| :: Moved(cfg, p.fabric, p'.fabric, req, req.members[i]))
    && (forall id | id in p.fabric.seqs && Apart(req, |req.members|, id) :: p'.fabric.seqs[id] == p.fabric.seqs[id])
  }

  /** The same sequences, workers and boots, the same epoch, and no dispatch id taken. */
  predicate Framed(f: F.FabricState, f': F.FabricState) {
    && f'.seqs.Keys == f.seqs.Keys && f'.epoch == f.epoch && f'.boots == f.boots && f'.workers == f.workers
    && f'.next.dispatch == f.next.dispatch
  }

  lemma Combine(cfg: F.Config, num: E.Numerics, p: Pair, p': Pair, req: ExecutionRequest)
    requires OwnStates(p.fabric) && FI.Inv(cfg, p'.fabric) && GrantsFresh(p'.fabric, p'.executor)
      && ProposalsFresh(p'.executor) && Framed(p.fabric, p'.fabric)
    requires forall i | 0 <= i < |req.members| :: MemberUp(cfg, num, p, p', req, req.members[i])
    requires forall id | id in p.fabric.seqs && Apart(req, |req.members|, id) :: StaysPut(num, p, p', id)
    ensures Driven(cfg, num, p, p', req)
  {
    forall id | id in p.fabric.seqs
      ensures InSync(num, p'.fabric.seqs[id], p'.executor) && p'.fabric.seqs[id].kv == p.fabric.seqs[id].kv
    {
      if Apart(req, |req.members|, id) {
        assert StaysPut(num, p, p', id);
      } else {
        var i :| 0 <= i < |req.members| && req.members[i].sequence == id;
        assert MemberUp(cfg, num, p, p', req, req.members[i]);
      }
    }
    assert forall i | 0 <= i < |req.members| :: MemberUp(cfg, num, p, p', req, req.members[i]);
    assert forall id | id in p.fabric.seqs && Apart(req, |req.members|, id) :: StaysPut(num, p, p', id);
  }

  lemma TripDriven(cfg: F.Config, num: E.Numerics, p: Pair, req: ExecutionRequest, t: Trip, now: int)
    requires Synced(cfg, num, p) && Ascent(cfg, num, p, req, t) && Descent(cfg, t, now) && FI.Inv(cfg, t.final)
    ensures Driven(cfg, num, p, Pair(t.final, t.settled), req)
  {
    var p' := Pair(t.final, t.settled);
    forall i | 0 <= i < |req.members| ensures MemberUp(cfg, num, p, p', req, req.members[i]) {
      TripMember(cfg, num, p, req, t, now, i);
    }
    forall id | id in p.fabric.seqs && Apart(req, |req.members|, id) ensures StaysPut(num, p, p', id) {
      TripOther(cfg, num, p, req, t, now, id);
    }
    FreshAfter(cfg, num, p, req, t, now);
    Combine(cfg, num, p, p', req);
  }

  /**
   Whatever the acceptance keys are: a driven pair is in agreement again, every member has
   gained one token, or none when its key is the one its sequence accepted last, and no other
   sequence has changed.
   */
  lemma DriveKeeps(cfg: F.Config, num: E.Numerics, p: Pair, req: ExecutionRequest, c: Cycle)
    requires Synced(cfg, num, p) && Drivable(p.fabric, req)
    ensures Driven(cfg, num, p, Drive(cfg, num, p, req, c), req)
  {
    AgreeingMembers(cfg, num, p, req);
    RipeMembers(cfg, num, p, req);
    var t := DriveTrip(cfg, num, p, req, c);
    TravelsDrive(cfg, num, p, req, c, t);
    TripInv(cfg, num, p, req, t);
    TripDriven(cfg, num, p, req, t, c.now);
  }
}
