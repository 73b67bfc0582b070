/**
 A coordinator driven alone with one executor: what one cycle of the pair does, and that
 cycles of it come to rest.
 */
module PumpRuns {
  // Every cycle that sends anything out lightens the load, the two sides agree after every
  // cycle, and pumping comes to an end.

  import opened Types
  import opened Lifecycle
  import opened Pump
  import opened PumpGroup
  import opened PumpDrive
  import opened PumpSchedule
  import opened PumpLoad
  import F = Fabric
  import FI = FabricInvariants
  import FS = FabricSteps
  import E = Executor
  import O = Operations
  import C = Coordinator
  import X = CpuExecutor

  // ---------------------------------------------------------------------------
  // A cycle

  /** The sequence is level on both sides: same token count, same digest, nothing staged, nothing pending. */
  predicate Level(num: E.Numerics, p: Pair, id: nat) {
    && id in p.fabric.seqs
    && var s := p.fabric.seqs[id];
    && s.pending.None? && s.tally.digestEstablished && s.kv.id in p.executor.states
    && var st := p.executor.states[s.kv.id];
    && st.tentative.None? && st.tokens == s.tally.generated && E.CommittedDigest(num, st) == s.tally.digest
  }

  lemma SyncedLevel(cfg: F.Config, num: E.Numerics, p: Pair, id: nat)
    requires Synced(cfg, num, p) && id in p.fabric.seqs && p.fabric.seqs[id].tally.digestEstablished
    ensures Level(num, p, id)
  {
    assert InSync(num, p.fabric.seqs[id], p.executor);
  }

  /** Every member of the requests is level. */
  ghost predicate AllLevel(num: E.Numerics, p: Pair, reqs: seq<ExecutionRequest>) {
    forall r, i | 0 <= r < |reqs| && 0 <= i < |reqs[r].members| :: Level(num, p, reqs[r].members[i].sequence)
  }

  predicate Settled(f: F.FabricState, id: nat) {
    id in f.seqs && f.seqs[id].tally.digestEstablished
  }

  predicate Unlisted(reqs: seq<ExecutionRequest>, id: nat) {
    forall r, i | 0 <= r < |reqs| && 0 <= i < |reqs[r].members| :: reqs[r].members[i].sequence != id
  }

  /** Each member moved as it should, and nobody else did. */
  ghost predicate AllDriven(cfg: F.Config, num: E.Numerics, p: Pair, p': Pair, reqs: seq<ExecutionRequest>) {
    && Synced(cfg, num, p') && Framed(p.fabric, p'.fabric)
    && (forall r, i | 0 <= r < |reqs| && 0 <= i < |reqs[r].members| ::
      Moved(cfg, p.fabric, p'.fabric, reqs[r], reqs[r].members[i]))
    && (forall id | id in p.fabric.seqs && Unlisted(reqs, id) :: p'.fabric.seqs[id] == p.fabric.seqs[id])
  }

  lemma {:induction false} DriveAllKeeps(cfg: F.Config, num: E.Numerics, p: Pair, reqs: seq<ExecutionRequest>, c: Cycle)
    requires Synced(cfg, num, p) && AllDrivable(p.fabric, reqs)
    ensures AllDriven(cfg, num, p, DriveAll(cfg, num, p, reqs, c), reqs)
  {
    if reqs != [] {
      var front, req := reqs[..|reqs| - 1], reqs[|reqs| - 1];
      DriveAllKeeps(cfg, num, p, front, c);
      var p1 := DriveAll(cfg, num, p, front, c);
      LastUntouched(p.fabric, p1.fabric, reqs);
      DrivableStays(p.fabric, p1.fabric, req);
      DriveKeeps(cfg, num, p1, req, c);
      DrivenNext(cfg, num, p, p1, Drive(cfg, num, p1, req, c), reqs);
    }
  }

  /** The last request is untouched by the ones before it. */
  lemma LastUntouched(f: F.FabricState, f1: F.FabricState, reqs: seq<ExecutionRequest>)
    requires reqs != [] && AllDrivable(f, reqs) && f1.seqs.Keys == f.seqs.Keys
    requires forall id | id in f.seqs && Unlisted(reqs[..|reqs| - 1], id) :: f1.seqs[id] == f.seqs[id]
    ensures var req := reqs[|reqs| - 1];
      forall i | 0 <= i < |req.members| ::
        req.members[i].sequence in f1.seqs && req.members[i].sequence in f.seqs
        && f1.seqs[req.members[i].sequence] == f.seqs[req.members[i].sequence]
  {
    var n, req := |reqs| - 1, reqs[|reqs| - 1];
    forall i | 0 <= i < |req.members|
      ensures req.members[i].sequence in f1.seqs && f1.seqs[req.members[i].sequence] == f.seqs[req.members[i].sequence]
    {
      assert OutOn(f, req, req.members[i]);
      forall r, j | 0 <= r < |reqs[..n]| && 0 <= j < |reqs[..n][r].members|
        ensures reqs[..n][r].members[j].sequence != req.members[i].sequence {
        assert Separate(reqs[r], reqs[n]);
      }
      assert Unlisted(reqs[..n], req.members[i].sequence);
    }
  }

  lemma UnlistedBefore(reqs: seq<ExecutionRequest>, id: nat)
    requires reqs != [] && Unlisted(reqs, id)
    ensures Unlisted(reqs[..|reqs| - 1], id) && Apart(reqs[|reqs| - 1], |reqs[|reqs| - 1].members|, id)
  {
    var n := |reqs| - 1;
    forall r, i | 0 <= r < |reqs[..n]| && 0 <= i < |reqs[..n][r].members|
      ensures reqs[..n][r].members[i].sequence != id {
      assert reqs[r].members[i].sequence != id;
    }
  }

  lemma MovedStays(cfg: F.Config, f: F.FabricState, f1: F.FabricState, f2: F.FabricState, req: ExecutionRequest,
                   m: MemberSpec)
    requires Moved(cfg, f, f1, req, m) && m.sequence in f2.seqs && f2.seqs[m.sequence] == f1.seqs[m.sequence]
    ensures Moved(cfg, f, f2, req, m)
  {
  }

  lemma MovedFrom(cfg: F.Config, f: F.FabricState, f1: F.FabricState, f2: F.FabricState, req: ExecutionRequest,
                  m: MemberSpec)
    requires Moved(cfg, f1, f2, req, m) && m.sequence in f.seqs && SameWork(f.seqs[m.sequence], f1.seqs[m.sequence])
    ensures Moved(cfg, f, f2, req, m)
  {
  }

  lemma EarlierMember(cfg: F.Config, f: F.FabricState, f1: F.FabricState, f2: F.FabricState,
                      reqs: seq<ExecutionRequest>, last: ExecutionRequest, r: nat, i: nat)
    requires r < |reqs| && i < |reqs[r].members| && Separate(reqs[r], last) && f2.seqs.Keys == f1.seqs.Keys
    requires Moved(cfg, f, f1, reqs[r], reqs[r].members[i])
    requires forall id | id in f1.seqs && Apart(last, |last.members|, id) :: f2.seqs[id] == f1.seqs[id]
    ensures Moved(cfg, f, f2, reqs[r], reqs[r].members[i])
  {
    assert Apart(last, |last.members|, reqs[r].members[i].sequence);
    MovedStays(cfg, f, f1, f2, reqs[r], reqs[r].members[i]);
  }

  lemma DrivenMember(cfg: F.Config, num: E.Numerics, p: Pair, p1: Pair, p2: Pair, reqs: seq<ExecutionRequest>, r: nat,
                     i: nat)
    requires reqs != [] && AllDrivable(p.fabric, reqs) && r < |reqs| && i < |reqs[r].members|
    requires AllDriven(cfg, num, p, p1, reqs[..|reqs| - 1]) && Driven(cfg, num, p1, p2, reqs[|reqs| - 1])
    ensures Moved(cfg, p.fabric, p2.fabric, reqs[r], reqs[r].members[i])
  {
    var n := |reqs| - 1;
    var front := reqs[..n];
    if r < n {
      assert front[r] == reqs[r] && Separate(reqs[r], reqs[n]);
      assert Moved(cfg, p.fabric, p1.fabric, front[r], front[r].members[i]);
      EarlierMember(cfg, p.fabric, p1.fabric, p2.fabric, front, reqs[n], r, i);
    } else {
      LastUntouched(p.fabric, p1.fabric, reqs);
      assert Moved(cfg, p1.fabric, p2.fabric, reqs[n], reqs[n].members[i]);
      MovedFrom(cfg, p.fabric, p1.fabric, p2.fabric, reqs[n], reqs[n].members[i]);
    }
  }

  lemma DrivenNext(cfg: F.Config, num: E.Numerics, p: Pair, p1: Pair, p2: Pair, reqs: seq<ExecutionRequest>)
    requires reqs != [] && AllDrivable(p.fabric, reqs)
    requires AllDriven(cfg, num, p, p1, reqs[..|reqs| - 1]) && Driven(cfg, num, p1, p2, reqs[|reqs| - 1])
    ensures AllDriven(cfg, num, p, p2, reqs)
  {
    forall r, i | 0 <= r < |reqs| && 0 <= i < |reqs[r].members|
      ensures Moved(cfg, p.fabric, p2.fabric, reqs[r], reqs[r].members[i]) {
      DrivenMember(cfg, num, p, p1, p2, reqs, r, i);
    }
    forall id | id in p.fabric.seqs && Unlisted(reqs, id) ensures p2.fabric.seqs[id] == p.fabric.seqs[id] {
      UnlistedBefore(reqs, id);
    }
  }

  /** A change that moves no token and withdraws at most pending grants keeps the agreement. */
  lemma UnmovedSynced(cfg: F.Config, num: E.Numerics, f: F.FabricState, f': F.FabricState, e: E.ExecutorState)
    requires Synced(cfg, num, Pair(f, e)) && FI.Inv(cfg, f') && FI.Evolves(f, f') && FS.Unmoved(f, f')
      && FS.NoNewGrants(f, f')
    ensures Synced(cfg, num, Pair(f', e))
  {
    forall id | id in f'.seqs ensures InSync(num, f'.seqs[id], e) && f'.seqs[id].kv.id == f.seqs[id].kv.id {
      assert InSync(num, f.seqs[id], e) && FI.SeqStep(f.next.dispatch, f.seqs[id], f'.seqs[id]);
    }
  }

  lemma AdvanceSynced(cfg: F.Config, num: E.Numerics, f: F.FabricState, e: E.ExecutorState, now: int, order: seq<nat>)
    requires Synced(cfg, num, Pair(f, e))
    ensures Synced(cfg, num, Pair(F.Advance(f, now, order), e))
  {
    var f' := F.Advance(f, now, order);
    FI.AdvanceCalm(cfg, f, now, order);
    FI.CalmKeeps(cfg, f, f');
    FS.CalmUnmoved(cfg, f, f');
    FS.CalmGrants(cfg, f, f');
    UnmovedSynced(cfg, num, f, f', e);
  }

  lemma ScheduleSynced(cfg: F.Config, num: E.Numerics, f: F.FabricState, e: E.ExecutorState, c: Cycle)
    requires Synced(cfg, num, Pair(f, e)) && NoRepeats(c.order)
    ensures var (f', out) := F.Schedule(cfg, f, c.now, c.order, c.workerOrder, c.score);
      Synced(cfg, num, Pair(f', e)) && AllDrivable(f', out)
  {
    var (f', out) := F.Schedule(cfg, f, c.now, c.order, c.workerOrder, c.score);
    FS.ScheduleKeeps(cfg, f, c.now, c.order, c.workerOrder, c.score);
    UnmovedSynced(cfg, num, f, f', e);
    ScheduleDrivable(cfg, f, c.now, c.order, c.workerOrder, c.score);
  }

  /** A member that moved has finalised a token, now or before. */
  lemma MovedSettled(cfg: F.Config, f: F.FabricState, f': F.FabricState, req: ExecutionRequest, m: MemberSpec)
    requires FI.Inv(cfg, f') && Moved(cfg, f, f', req, m)
    ensures Settled(f', m.sequence)
  {
    assert FI.SeqOk(cfg, f', m.sequence, f'.seqs[m.sequence]);
  }

  lemma MovedLevel(cfg: F.Config, num: E.Numerics, p: Pair, p': Pair, reqs: seq<ExecutionRequest>)
    requires AllDriven(cfg, num, p, p', reqs)
    ensures AllLevel(num, p', reqs) && forall id | Settled(p'.fabric, id) :: Level(num, p', id)
  {
    forall id | Settled(p'.fabric, id) ensures Level(num, p', id) {
      SyncedLevel(cfg, num, p', id);
    }
    forall r, i | 0 <= r < |reqs| && 0 <= i < |reqs[r].members| ensures Level(num, p', reqs[r].members[i].sequence) {
      MovedSettled(cfg, p.fabric, p'.fabric, reqs[r], reqs[r].members[i]);
    }
  }

  /** What a cycle sends out, and the state it sends it from. */
  function Sent(cfg: F.Config, f: F.FabricState, c: Cycle): (F.FabricState, seq<ExecutionRequest>) {
    F.Schedule(cfg, F.Advance(f, c.now, c.order), c.now, c.order, c.workerOrder, c.score)
  }

  lemma SentCarried(cfg: F.Config, f: F.FabricState, c: Cycle) returns (f1: F.FabricState, out: seq<ExecutionRequest>)
    ensures Sent(cfg, f, c) == (f1, out) && Carried(f, f1) && Numbered(f, f1, out)
  {
    var f0 := F.Advance(f, c.now, c.order);
    AdvanceCarries(f, c.now, c.order);
    ScheduleCarried(cfg, f0, c.now, c.order, c.workerOrder, c.score);
    f1, out := Sent(cfg, f, c).0, Sent(cfg, f, c).1;
    CarriedTrans(f, f0, f1);
    NumberedTrans(f, f0, f1, [], out);
    assert [] + out == out;
  }

  lemma SentSynced(cfg: F.Config, num: E.Numerics, p: Pair, c: Cycle, f1: F.FabricState, out: seq<ExecutionRequest>)
    requires Synced(cfg, num, p) && NoRepeats(c.order) && Sent(cfg, p.fabric, c) == (f1, out)
    ensures Synced(cfg, num, Pair(f1, p.executor)) && AllDrivable(f1, out)
  {
    AdvanceSynced(cfg, num, p.fabric, p.executor, c.now, c.order);
    ScheduleSynced(cfg, num, F.Advance(p.fabric, c.now, c.order), p.executor, c);
  }

  /** The state in which the requests of a cycle are driven. */
  lemma PumpDriven(cfg: F.Config, num: E.Numerics, p: Pair, c: Cycle)
    returns (start: Pair, p': Pair, out: seq<ExecutionRequest>)
    requires Synced(cfg, num, p) && NoRepeats(c.order)
    ensures PumpOnce(cfg, num, p, c) == (p', out)
    ensures AllDrivable(start.fabric, out) && AllDriven(cfg, num, start, p', out)
    ensures Carried(p.fabric, start.fabric) && Numbered(p.fabric, start.fabric, out)
  {
    var f1, reqs := SentCarried(cfg, p.fabric, c);
    SentSynced(cfg, num, p, c, f1, reqs);
    start, out := Pair(f1, p.executor), reqs;
    DriveAllKeeps(cfg, num, start, out, c);
    p' := DriveAll(cfg, num, start, out, c);
  }

  /** Each member is sent out as it stands, and moves as it should. */
  lemma SendingMoved(cfg: F.Config, num: E.Numerics, p: Pair, start: Pair, p': Pair, out: seq<ExecutionRequest>, k: nat)
    requires AllDrivable(start.fabric, out) && AllDriven(cfg, num, start, p', out) && k < |Sendings(out)|
    requires Carried(p.fabric, start.fabric) && Numbered(p.fabric, start.fabric, out)
    ensures var s := Sendings(out)[k];
      SentOut(Names(p.fabric), p.fabric, p'.fabric, s.req, s.m) && Moved(cfg, p.fabric, p'.fabric, s.req, s.m)
  {
    var r, i := SendingFrom(out, k);
    var req, m := out[r], out[r].members[i];
    assert OutOn(start.fabric, req, m) && Addressed(p.fabric, req, p.fabric.next.dispatch + r);
    assert SameWork(p.fabric.seqs[m.sequence], start.fabric.seqs[m.sequence]);
    assert Moved(cfg, start.fabric, p'.fabric, out[r], out[r].members[i]);
    MovedFrom(cfg, p.fabric, start.fabric, p'.fabric, req, m);
  }

  lemma {:induction false} SendsMember(reqs: seq<ExecutionRequest>, r: nat, i: nat)
    requires r < |reqs| && i < |reqs[r].members|
    ensures Sends(Sendings(reqs), reqs[r].members[i].sequence)
  {
    var n := |reqs| - 1;
    var t := Sendings(reqs[..n]);
    if r < n {
      assert reqs[..n][r] == reqs[r];
      SendsMember(reqs[..n], r, i);
      var k :| 0 <= k < |t| && t[k].m.sequence == reqs[r].members[i].sequence;
      assert Sendings(reqs)[k] == t[k];
    } else {
      assert Sendings(reqs)[|t| + i].m == reqs[r].members[i];
    }
  }

  lemma UnsentStays(cfg: F.Config, num: E.Numerics, p: Pair, start: Pair, p': Pair, out: seq<ExecutionRequest>, id: nat)
    requires AllDriven(cfg, num, start, p', out) && Carried(p.fabric, start.fabric)
    requires id in p.fabric.seqs && !Sends(Sendings(out), id)
    ensures SameWork(p.fabric.seqs[id], p'.fabric.seqs[id])
  {
    forall r, i | 0 <= r < |out| && 0 <= i < |out[r].members| ensures out[r].members[i].sequence != id {
      SendsMember(out, r, i);
    }
    assert Unlisted(out, id);
    assert SameWork(p.fabric.seqs[id], start.fabric.seqs[id]);
  }

  /** What one cycle does to the work of every sequence. */
  ghost predicate Pumped(cfg: F.Config, f: F.FabricState, f': F.FabricState, out: seq<ExecutionRequest>) {
    && f'.seqs.Keys == f.seqs.Keys && Later(f, f') && Names(f') <= Names(f)
    && f'.next.dispatch == f.next.dispatch + |out| && Once(Sendings(out)) && |Sendings(out)| >= |out|
    && (forall k | 0 <= k < |Sendings(out)| ::
      SentOut(Names(f), f, f', Sendings(out)[k].req, Sendings(out)[k].m)
        && Moved(cfg, f, f', Sendings(out)[k].req, Sendings(out)[k].m))
    && (forall id | id in f.seqs && !Sends(Sendings(out), id) :: SameWork(f.seqs[id], f'.seqs[id]))
  }

  lemma AllPumped(cfg: F.Config, num: E.Numerics, p: Pair, start: Pair, p': Pair, out: seq<ExecutionRequest>)
    requires AllDrivable(start.fabric, out) && AllDriven(cfg, num, start, p', out)
    requires Carried(p.fabric, start.fabric) && Numbered(p.fabric, start.fabric, out)
    ensures Pumped(cfg, p.fabric, p'.fabric, out)
  {
    SendingsOnce(start.fabric, out);
    forall k | 0 <= k < |Sendings(out)|
      ensures SentOut(Names(p.fabric), p.fabric, p'.fabric, Sendings(out)[k].req, Sendings(out)[k].m)
        && Moved(cfg, p.fabric, p'.fabric, Sendings(out)[k].req, Sendings(out)[k].m)
    {
      SendingMoved(cfg, num, p, start, p', out, k);
    }
    forall id | id in p.fabric.seqs && !Sends(Sendings(out), id)
      ensures SameWork(p.fabric.seqs[id], p'.fabric.seqs[id]) {
      UnsentStays(cfg, num, p, start, p', out, id);
    }
  }

  lemma PumpedBudget(cfg: F.Config, f: F.FabricState, f': F.FabricState, out: seq<ExecutionRequest>)
    requires Pumped(cfg, f, f', out)
    ensures Budget(f') + Gains(cfg, f, Sendings(out)) == Budget(f)
  {
    BudgetFalls(cfg, f, f', Sendings(out));
  }

  /**
   One cycle, whatever the acceptance keys are. Every dispatched member gains one token,
   or none when its key is the one accepted last; no other sequence moves; the budget shrinks
   by exactly the tokens gained. Every dispatched sequence is level afterwards, and so is
   every sequence that ever finalised a token.
   */
  lemma PumpKeeps(cfg: F.Config, num: E.Numerics, p: Pair, c: Cycle)
    requires Synced(cfg, num, p) && NoRepeats(c.order)
    ensures var (p', out) := PumpOnce(cfg, num, p, c);
      && Synced(cfg, num, p') && Pumped(cfg, p.fabric, p'.fabric, out)
      && Budget(p'.fabric) + Gains(cfg, p.fabric, Sendings(out)) == Budget(p.fabric)
      && AllLevel(num, p', out) && (forall id | Settled(p'.fabric, id) :: Level(num, p', id))
  {
    var start, p', out := PumpDriven(cfg, num, p, c);
    AllPumped(cfg, num, p, start, p', out);
    PumpedBudget(cfg, p.fabric, p'.fabric, out);
    MovedLevel(cfg, num, start, p', out);
  }

  /** Dispatch ids do not run out, and every dispatched member lightens the load. */
  lemma PumpedLoad(cfg: F.Config, names: set<nat>, f: F.FabricState, f': F.FabricState, out: seq<ExecutionRequest>)
    requires Pumped(cfg, f, f', out) && DispatchTells(cfg) && Names(f) <= names
    requires f.next.dispatch + Load(cfg, names, f) <= TWO64
    ensures Load(cfg, names, f') + |Sendings(out)| <= Load(cfg, names, f)
    ensures f'.next.dispatch + Load(cfg, names, f') <= TWO64 && Names(f') <= names
  {
    var ss := Sendings(out);
    forall i | 0 <= i < |ss| ensures SentOut(names, f, f', ss[i].req, ss[i].m) {
      assert SentOut(Names(f), f, f', Sendings(out)[i].req, Sendings(out)[i].m);
    }
    LoadCovers(cfg, names, f, ss);
    LoadFalls(cfg, names, f, f', ss);
  }

  // ---------------------------------------------------------------------------
  // How a pair comes to be in agreement

  lemma StartSynced(cfg: F.Config, num: E.Numerics)
    ensures Synced(cfg, num, Pair(F.Start, E.Fresh))
  {
  }

  /** Admitting a sequence with a state of its own that the executor has not met. */
  lemma SubmitSynced(cfg: F.Config, num: E.Numerics, p: Pair, req: F.DecodeRequest, workerOrder: seq<nat>, admit: bool)
    requires Synced(cfg, num, p) && req.state.id !in p.executor.states
    requires forall id | id in p.fabric.seqs :: p.fabric.seqs[id].kv.id != req.state.id
    ensures Synced(cfg, num, p.(fabric := F.Submit(p.fabric, req, workerOrder, admit)))
  {
    var f' := F.Submit(p.fabric, req, workerOrder, admit);
    FS.SubmitKeeps(cfg, p.fabric, req, workerOrder, admit);
    forall id | id in f'.seqs ensures InSync(num, f'.seqs[id], p.executor) {
      assert id in p.fabric.seqs ==> InSync(num, p.fabric.seqs[id], p.executor);
    }
  }

  /**
   The coordinator's other operations between cycles: cancelling, retrying, workers, epochs,
   deadlines, bare completions.
   */
  lemma OperationSynced(cfg: F.Config, num: E.Numerics, p: Pair, op: O.Operation)
    requires Synced(cfg, num, p) && O.Plain(op) && !op.AbortPending?
    ensures Synced(cfg, num, p.(fabric := O.Operate(cfg, p.fabric, op)))
  {
    var f' := O.Operate(cfg, p.fabric, op);
    O.PlainKeeps(cfg, p.fabric, op);
    if !op.Register? {
      O.OperateCalm(cfg, p.fabric, op);
      FS.CalmGrants(cfg, p.fabric, f');
    }
    UnmovedSynced(cfg, num, p.fabric, f', p.executor);
  }

  // ---------------------------------------------------------------------------
  // The loops

  type CycleStep = (Pair, Cycle) -> (Pair, seq<ExecutionRequest>)

  ghost function Both(f: C.DecodeFabric, e: X.CpuDecodeExecutor): Pair
    reads f, e
  {
    Pair(f.View(), e.View())
  }

  method SettleReplies(e: X.CpuDecodeExecutor, replies: seq<F.Reply>, now: int) returns (recs: seq<MemberReceipt>)
    modifies e
    ensures (e.View(), recs) == Settle(old(e.View()), replies, now)
  {
    recs := [];
    for i := 0 to |replies|
      invariant (e.View(), recs) == Settle(old(e.View()), replies[..i], now)
    {
      assert replies[..i + 1][..i] == replies[..i];
      match replies[i]
      case SendAbort(abort, _) =>
        var _ := e.Abort(abort);
      case SendGrant(g) =>
        var r := e.Commit(g);
        if r.Ok? {
          recs := recs + [r.value.(committedAt := now)];
        }
    }
    assert replies[..|replies|] == replies;
  }

  method DriveRequest(f: C.DecodeFabric, e: X.CpuDecodeExecutor, req: ExecutionRequest, c: Cycle)
    modifies f, e
    ensures Both(f, e) == Drive(f.cfg, e.num, old(Both(f, e)), req, c)
  {
    var prep := e.Prepare(req, c.ns);
    if prep.Err? {
      f.ApplyCompletion(Failure(req));
      return;
    }
    var replies := f.AuthorizePrepared(prep.value);
    var recs := SettleReplies(e, replies, c.now);
    ghost var _ := f.ApplyCommitReceipt(recs);
  }

  method PumpCycle(f: C.DecodeFabric, e: X.CpuDecodeExecutor, c: Cycle) returns (out: seq<ExecutionRequest>)
    modifies f, e
    ensures (Both(f, e), out) == PumpOnce(f.cfg, e.num, old(Both(f, e)), c)
  {
    f.Advance(c.now, c.order);
    out := f.Schedule(c.now, c.order, c.workerOrder, c.score);
    DriveRequests(f, e, out, c);
  }

  method DriveRequests(f: C.DecodeFabric, e: X.CpuDecodeExecutor, reqs: seq<ExecutionRequest>, c: Cycle)
    modifies f, e
    ensures Both(f, e) == DriveAll(f.cfg, e.num, old(Both(f, e)), reqs, c)
  {
    for i := 0 to |reqs|
      invariant Both(f, e) == DriveAll(f.cfg, e.num, old(Both(f, e)), reqs[..i], c)
    {
      assert reqs[..i + 1][..i] == reqs[..i];
      DriveRequest(f, e, reqs[i], c);
    }
    assert reqs[..|reqs|] == reqs;
  }

  /** The pair after `n` cycles of `pump`. */
  function After(pump: CycleStep, cycles: nat -> Cycle, p: Pair, n: nat): Pair {
    if n == 0 then p else pump(After(pump, cycles, p, n - 1), cycles(n - 1)).0
  }

  /** What cycle `i` sends out. */
  function SentBy(pump: CycleStep, cycles: nat -> Cycle, p: Pair, i: nat): seq<ExecutionRequest> {
    pump(After(pump, cycles, p, i), cycles(i)).1
  }

  function Pumper(cfg: F.Config, num: E.Numerics): CycleStep {
    (p, c) => PumpOnce(cfg, num, p, c)
  }

  /** `n` cycles have led to `q`, and each of them sent something out. */
  ghost predicate Busy(pump: CycleStep, cycles: nat -> Cycle, p: Pair, n: nat, q: Pair) {
    After(pump, cycles, p, n) == q && forall i | 0 <= i < n :: SentBy(pump, cycles, p, i) != []
  }

  /** `n` cycles have led to `q`; all but perhaps the last sent something out, and the last one did unless `idle`. */
  ghost predicate Stops(pump: CycleStep, cycles: nat -> Cycle, p: Pair, n: nat, q: Pair, idle: bool) {
    && n > 0 && After(pump, cycles, p, n) == q
    && (forall i | 0 <= i < n - 1 :: SentBy(pump, cycles, p, i) != [])
    && (idle <==> SentBy(pump, cycles, p, n - 1) == [])
  }

  lemma OneMoreCycle(pump: CycleStep, cycles: nat -> Cycle, p: Pair, n: nat, q: Pair, q': Pair,
                     out: seq<ExecutionRequest>)
    requires Busy(pump, cycles, p, n, q) && pump(q, cycles(n)) == (q', out)
    ensures Stops(pump, cycles, p, n + 1, q', out == [])
    ensures out != [] ==> Busy(pump, cycles, p, n + 1, q')
  {
    assert SentBy(pump, cycles, p, n) == out;
  }

  /** What the loop keeps. */
  ghost predicate Going(cfg: F.Config, num: E.Numerics, names: set<nat>, p: Pair, n: nat, load: nat) {
    && Synced(cfg, num, p) && Names(p.fabric) <= names && n + Load(cfg, names, p.fabric) <= load
    && p.fabric.next.dispatch + Load(cfg, names, p.fabric) <= TWO64
  }

  lemma StillGoing(cfg: F.Config, num: E.Numerics, names: set<nat>, p: Pair, c: Cycle, n: nat, load: nat)
    requires Going(cfg, num, names, p, n, load) && DispatchTells(cfg) && NoRepeats(c.order)
    ensures var (p', out) := PumpOnce(cfg, num, p, c);
      && Going(cfg, num, names, p', n, load) && (forall id | Settled(p'.fabric, id) :: Level(num, p', id))
      && Load(cfg, names, p'.fabric) + |out| <= Load(cfg, names, p.fabric)
  {
    PumpKeeps(cfg, num, p, c);
    var (p', out) := PumpOnce(cfg, num, p, c);
    PumpedLoad(cfg, names, p.fabric, p'.fabric, out);
  }

  /**
   Pumping ends: it stops after the first cycle that sends nothing out, or at the limit, and
   every other cycle lightens the load. All that is asked of the acceptance key is that it
   tells dispatch ids apart, which the program's own key does, and of the dispatch counter
   that it does not pass 64 bits. `cycles` is what the clock and the hash maps turn out to be.
   */
  method PumpUntilIdle(f: C.DecodeFabric, e: X.CpuDecodeExecutor, cycles: nat -> Cycle, maxCycles: nat)
    returns (n: nat, idle: bool)
    requires Synced(f.cfg, e.num, Both(f, e)) && DispatchTells(f.cfg) && forall i :: NoRepeats(cycles(i).order)
    requires f.View().next.dispatch + Load(f.cfg, Names(f.View()), f.View()) <= TWO64
    modifies f, e
    ensures Stops(Pumper(f.cfg, e.num), cycles, old(Both(f, e)), n, Both(f, e), idle)
    ensures idle || n == maxCycles
    ensures maxCycles > 0 ==> n <= maxCycles
    ensures Synced(f.cfg, e.num, Both(f, e))
    ensures n - 1 + Load(f.cfg, old(Names(f.View())), f.View()) <= old(Load(f.cfg, Names(f.View()), f.View()))
    ensures n - 1 <= old(Budget(f.View()) * (|Names(f.View())| + 1))
    ensures forall id | Settled(f.View(), id) :: Level(e.num, Both(f, e), id)
  {
    n := 0;
    ghost var names, load := Names(f.View()), Load(f.cfg, Names(f.View()), f.View());
    LoadBound(f.cfg, names, f.View());
    while true
      invariant Going(f.cfg, e.num, names, Both(f, e), n, load)
      invariant Busy(Pumper(f.cfg, e.num), cycles, old(Both(f, e)), n, Both(f, e)) && (maxCycles > 0 ==> n < maxCycles)
      decreases Load(f.cfg, names, f.View())
    {
      ghost var before := Both(f, e);
      var out := PumpCycle(f, e, cycles(n));
      StillGoing(f.cfg, e.num, names, before, cycles(n), n, load);
      OneMoreCycle(Pumper(f.cfg, e.num), cycles, old(Both(f, e)), n, before, Both(f, e), out);
      n := n + 1;
      if maxCycles > 0 && n >= maxCycles {
        return n, out == [];
      }
      var candidates := exists id | id in f.seqs :: Candidate(f.seqs[id].state);
      if !candidates && out == [] {
        return n, true;
      }
      if out == [] {
        if candidates {
          return n, true;
        }
      }
    }
  }
}
