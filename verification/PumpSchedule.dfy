/**
 What a scheduling pass sends out is ready to be driven, one request at a time: its requests
 have no sequence in common, each member describes its sequence as it stands, and the
 sequence is out on that dispatch. Driving one request leaves the others as they were sent,
 which is why they can be driven in turn.
 */
module PumpSchedule {
  import opened Types
  import opened Lifecycle
  import opened Pump
  import opened PumpGroup
  import F = Fabric
  import FI = FabricInvariants
  import FS = FabricSteps
  import G = Grouping
  import GP = GroupingProofs

  // ---------------------------------------------------------------------------
  // Candidates

  predicate Eligible(s: F.Sequence) {
    !Terminal(s.state) && !s.state.CancelRequested? && !s.tally.budget.Exhausted()
  }

  /** The hash map is iterated without repetition. */
  predicate NoRepeats(order: seq<nat>) {
    forall i, j | 0 <= i < j < |order| :: order[i] != order[j]
  }

  ghost predicate Offered(f: F.FabricState, cs: seq<G.Candidate>) {
    && GP.Distinct(cs) && (forall i | 0 <= i < |cs| :: cs[i].sequence in f.seqs && Eligible(f.seqs[cs[i].sequence]))
  }

  lemma OneOffers(f: F.FabricState, id: nat, cs: seq<G.Candidate>, workerOrder: seq<nat>, score: map<nat, real>)
    requires Offered(f, cs) && forall i | 0 <= i < |cs| :: cs[i].sequence != id
    ensures var (f', more) := F.CollectOne(f, id, workerOrder, score);
      Offered(f', cs + more) && forall i | 0 <= i < |more| :: more[i].sequence == id
  {
  }

  lemma {:induction false} CollectOffers(f: F.FabricState, order: seq<nat>, workerOrder: seq<nat>,
                                         score: map<nat, real>)
    requires NoRepeats(order)
    ensures var (f', cs) := F.Collect(f, order, workerOrder, score);
      Offered(f', cs) && forall i | 0 <= i < |cs| :: cs[i].sequence in order
  {
    if order != [] {
      var front, id := order[..|order| - 1], order[|order| - 1];
      CollectOffers(f, front, workerOrder, score);
      var (f1, cs) := F.Collect(f, front, workerOrder, score);
      assert id !in front;
      assert forall k | k in front :: k in order;
      OneOffers(f1, id, cs, workerOrder, score);
    }
  }

  lemma {:induction false} AtMostOnce(cs: seq<G.Candidate>, c: G.Candidate)
    requires GP.Distinct(cs)
    ensures multiset(cs)[c] <= 1
  {
    if cs != [] {
      var front, d := cs[..|cs| - 1], cs[|cs| - 1];
      AtMostOnce(front, c);
      assert cs == front + [d];
      if c == d {
        assert forall x | x in front :: x != c;
        assert c !in multiset(front);
      }
    }
  }

  lemma {:induction false} TwiceIn(a: seq<G.Candidate>, i: nat, j: nat)
    requires i < j < |a| && a[i] == a[j]
    ensures multiset(a)[a[i]] >= 2
  {
    assert a == a[..j] + [a[j]] + a[j + 1..];
    assert a[i] in a[..j];
    assert a[i] in multiset(a[..j]);
  }

  /** A part of distinct candidates is distinct. */
  lemma PartDistinct(a: seq<G.Candidate>, b: seq<G.Candidate>)
    requires GP.Distinct(b) && multiset(a) <= multiset(b)
    ensures GP.Distinct(a)
  {
    forall i, j | 0 <= i < j < |a| ensures a[i].sequence != a[j].sequence {
      assert a[i] in multiset(a) && a[j] in multiset(a);
      assert a[i] in b && a[j] in b;
      if a[i] == a[j] {
        TwiceIn(a, i, j);
        AtMostOnce(b, a[i]);
      }
    }
  }

  lemma PartOffered(f: F.FabricState, a: seq<G.Candidate>, b: seq<G.Candidate>)
    requires Offered(f, b) && multiset(a) <= multiset(b)
    ensures Offered(f, a)
  {
    PartDistinct(a, b);
    forall i | 0 <= i < |a| ensures a[i].sequence in f.seqs && Eligible(f.seqs[a[i].sequence]) {
      assert a[i] in multiset(a);
      assert a[i] in b;
    }
  }

  // ---------------------------------------------------------------------------
  // Moving and binding members

  /** `f'` differs from `f` in the listed sequences at most; what it is sent out with stays. */
  ghost predicate OnlyTouches(f: F.FabricState, f': F.FabricState, cs: seq<G.Candidate>) {
    && f'.seqs.Keys == f.seqs.Keys && f'.epoch == f.epoch && f'.boots == f.boots
    && (forall id | id in f.seqs && (forall i | 0 <= i < |cs| :: cs[i].sequence != id) :: f'.seqs[id] == f.seqs[id])
    && (forall id | id in f.seqs && Eligible(f.seqs[id]) :: Eligible(f'.seqs[id]))
    && (forall id | id in f.seqs :: F.SpecOf(id, f'.seqs[id]) == F.SpecOf(id, f.seqs[id]))
  }

  lemma TouchesTrans(f: F.FabricState, f1: F.FabricState, f2: F.FabricState, a: seq<G.Candidate>, b: seq<G.Candidate>)
    requires OnlyTouches(f, f1, a) && OnlyTouches(f1, f2, b)
    ensures OnlyTouches(f, f2, a + b)
  {
    forall id | id in f.seqs && (forall i | 0 <= i < |a + b| :: (a + b)[i].sequence != id)
      ensures f2.seqs[id] == f.seqs[id] {
      forall i | 0 <= i < |a| ensures a[i].sequence != id { assert (a + b)[i].sequence != id; }
      forall i | 0 <= i < |b| ensures b[i].sequence != id { assert (a + b)[|a| + i].sequence != id; }
      assert f1.seqs[id] == f.seqs[id];
    }
  }

  lemma OneTouched(f: F.FabricState, f': F.FabricState, c: G.Candidate)
    requires c.sequence in f.seqs && c.sequence in f'.seqs && f'.seqs == f.seqs[c.sequence := f'.seqs[c.sequence]]
    requires f'.epoch == f.epoch && f'.boots == f.boots
    requires Eligible(f.seqs[c.sequence]) ==> Eligible(f'.seqs[c.sequence])
    requires F.SpecOf(c.sequence, f'.seqs[c.sequence]) == F.SpecOf(c.sequence, f.seqs[c.sequence])
    ensures OnlyTouches(f, f', [c])
  {
    assert [c][0] == c;
  }

  lemma {:induction false} MoveTouches(f: F.FabricState, cs: seq<G.Candidate>, to: SequenceState)
    requires !Terminal(to) && !to.CancelRequested?
    ensures OnlyTouches(f, F.MoveAll(f, cs, to), cs)
  {
    if cs != [] {
      var front, c := cs[..|cs| - 1], cs[|cs| - 1];
      MoveTouches(f, front, to);
      var f1, f2 := F.MoveAll(f, front, to), F.MoveAll(f, cs, to);
      assert cs == front + [c];
      if c.sequence in f1.seqs {
        OneTouched(f1, f2, c);
        TouchesTrans(f, f1, f2, front, [c]);
      } else {
        assert OnlyTouches(f1, f2, [c]);
        TouchesTrans(f, f1, f2, front, [c]);
      }
    }
  }

  lemma {:induction false} GroupedTouches(f: F.FabricState, groups: seq<G.Group>, to: SequenceState)
    requires !Terminal(to) && !to.CancelRequested?
    ensures OnlyTouches(f, F.MoveGroups(f, groups, to), GP.AllMembers(groups))
  {
    if groups != [] {
      var front, g := groups[..|groups| - 1], groups[|groups| - 1];
      GroupedTouches(f, front, to);
      var f1 := F.MoveGroups(f, front, to);
      MoveTouches(f1, g.members, to);
      TouchesTrans(f, f1, F.MoveAll(f1, g.members, to), GP.AllMembers(front), g.members);
    }
  }

  /** The sequence is out on dispatch `d`. */
  predicate On(d: nat, s: F.Sequence) {
    s.flight.dispatch == d && s.flight.generation == s.tally.generation
  }

  lemma BindTouchesOne(f: F.FabricState, c: G.Candidate, d: nat, worker: nat, rid: nat)
    requires c.sequence in f.seqs
    ensures OnlyTouches(f, F.Bind(f, c.sequence, d, worker, rid), [c])
  {
    OneTouched(f, F.Bind(f, c.sequence, d, worker, rid), c);
  }

  lemma {:induction false} BindTouches(f: F.FabricState, cs: seq<G.Candidate>, d: nat, worker: nat, rid: nat)
    requires forall i | 0 <= i < |cs| :: cs[i].sequence in f.seqs
    ensures OnlyTouches(f, F.BindAll(f, cs, d, worker, rid), cs)
  {
    if cs != [] {
      var front, c := cs[..|cs| - 1], cs[|cs| - 1];
      assert cs == front + [c];
      BindTouches(f, front, d, worker, rid);
      BindNext(f, F.BindAll(f, front, d, worker, rid), front, c, d, worker, rid);
    }
  }

  lemma BindNext(f: F.FabricState, f1: F.FabricState, front: seq<G.Candidate>, c: G.Candidate, d: nat, worker: nat,
                 rid: nat)
    requires OnlyTouches(f, f1, front) && c.sequence in f.seqs
    ensures OnlyTouches(f, F.Bind(f1, c.sequence, d, worker, rid), front + [c])
  {
    BindTouchesOne(f1, c, d, worker, rid);
    TouchesTrans(f, f1, F.Bind(f1, c.sequence, d, worker, rid), front, [c]);
  }

  lemma BindOn(f: F.FabricState, id: nat, k: nat, d: nat, worker: nat, rid: nat)
    requires id in f.seqs && k in f.seqs && (k == id || On(d, f.seqs[k]))
    ensures k in F.Bind(f, id, d, worker, rid).seqs && On(d, F.Bind(f, id, d, worker, rid).seqs[k])
  {
  }

  lemma {:induction false} BindKeys(f: F.FabricState, cs: seq<G.Candidate>, d: nat, worker: nat, rid: nat)
    ensures var f' := F.BindAll(f, cs, d, worker, rid); f'.seqs.Keys == f.seqs.Keys && f'.terminal == f.terminal
  {
    if cs != [] {
      BindKeys(f, cs[..|cs| - 1], d, worker, rid);
    }
  }

  lemma {:induction false} BindPutsOut(f: F.FabricState, cs: seq<G.Candidate>, d: nat, worker: nat, rid: nat, i: nat)
    requires i < |cs| && forall k | 0 <= k < |cs| :: cs[k].sequence in f.seqs
    ensures cs[i].sequence in F.BindAll(f, cs, d, worker, rid).seqs
    ensures On(d, F.BindAll(f, cs, d, worker, rid).seqs[cs[i].sequence])
  {
    var front := cs[..|cs| - 1];
    BindKeys(f, front, d, worker, rid);
    if i < |front| {
      BindPutsOut(f, front, d, worker, rid, i);
    }
    BindOn(F.BindAll(f, front, d, worker, rid), cs[|cs| - 1].sequence, cs[i].sequence, d, worker, rid);
  }

  lemma {:induction false} SpecsListed(f: F.FabricState, cs: seq<G.Candidate>)
    requires forall i | 0 <= i < |cs| :: cs[i].sequence in f.seqs
    ensures |F.Specs(f, cs)| == |cs|
    ensures forall i | 0 <= i < |cs| :: F.Specs(f, cs)[i] == F.SpecOf(cs[i].sequence, f.seqs[cs[i].sequence])
  {
    if cs != [] {
      SpecsListed(f, cs[..|cs| - 1]);
    }
  }

  // ---------------------------------------------------------------------------
  // Dispatching groups

  lemma TouchesThrough(f: F.FabricState, f0: F.FabricState, f1: F.FabricState, f': F.FabricState, cs: seq<G.Candidate>)
    requires OnlyTouches(f0, f1, cs) && f0.seqs == f.seqs && f0.epoch == f.epoch && f0.boots == f.boots
    requires f'.seqs == f1.seqs && f'.epoch == f1.epoch && f'.boots == f1.boots
    ensures OnlyTouches(f, f', cs)
  {
  }

  lemma SendTouches(f: F.FabricState, w: F.Worker, g: G.Group)
    requires forall i | 0 <= i < |g.members| :: g.members[i].sequence in f.seqs
    ensures OnlyTouches(f, F.SendTo(f, w, g), g.members)
  {
    var f0 := F.Booked(f, w, g);
    BindTouches(f0, g.members, f.next.dispatch, w.id, f.memory.nextReservation);
    TouchesThrough(f, f0, F.BindAll(f0, g.members, f.next.dispatch, w.id, f.memory.nextReservation),
      F.SendTo(f, w, g), g.members);
  }

  lemma SendPutsOut(f: F.FabricState, w: F.Worker, g: G.Group, i: nat)
    requires i < |g.members| && forall k | 0 <= k < |g.members| :: g.members[k].sequence in f.seqs
    ensures g.members[i].sequence in F.SendTo(f, w, g).seqs
      && On(f.next.dispatch, F.SendTo(f, w, g).seqs[g.members[i].sequence])
  {
    var f0 := F.Booked(f, w, g);
    BindPutsOut(f0, g.members, f.next.dispatch, w.id, f.memory.nextReservation, i);
  }

  /** `f'` has sent `cs` out with `req`. */
  lemma SentDrivable(f: F.FabricState, f': F.FabricState, cs: seq<G.Candidate>, req: ExecutionRequest)
    requires Offered(f, cs) && OnlyTouches(f, f', cs) && req.dispatch != NULL && req.epoch == f.epoch
    requires req.worker in f.boots ==> f.boots[req.worker] == req.workerBoot
    requires forall i | 0 <= i < |cs| :: cs[i].sequence in f'.seqs && On(req.dispatch, f'.seqs[cs[i].sequence])
    requires req.members == F.Specs(f, cs)
    ensures Drivable(f', req) && |req.members| == |cs| && forall i | 0 <= i < |cs| ::
      req.members[i].sequence == cs[i].sequence
  {
    SpecsListed(f, cs);
    forall i | 0 <= i < |req.members| ensures OutOn(f', req, req.members[i]) {
      var id := cs[i].sequence;
      assert Eligible(f.seqs[id]) && On(req.dispatch, f'.seqs[id]);
      assert F.SpecOf(id, f'.seqs[id]) == F.SpecOf(id, f.seqs[id]);
    }
  }

  /** Requests that share no sequence, each ready to be driven and not empty. */
  ghost predicate AllDrivable(f: F.FabricState, out: seq<ExecutionRequest>) {
    && (forall r | 0 <= r < |out| :: Drivable(f, out[r]) && out[r].members != [])
    && (forall r, s | 0 <= r < s < |out| :: Separate(out[r], out[s]))
  }

  predicate Separate(a: ExecutionRequest, b: ExecutionRequest) {
    forall i, j | 0 <= i < |a.members| && 0 <= j < |b.members| :: a.members[i].sequence != b.members[j].sequence
  }

  /** All members of the requests are among the candidates. */
  ghost predicate Within(out: seq<ExecutionRequest>, cs: seq<G.Candidate>) {
    forall r, i | 0 <= r < |out| && 0 <= i < |out[r].members| :: Listed(cs, out[r].members[i].sequence)
  }

  predicate Listed(cs: seq<G.Candidate>, id: nat) {
    exists i | 0 <= i < |cs| :: cs[i].sequence == id
  }

  lemma DrivableStays(f: F.FabricState, f': F.FabricState, req: ExecutionRequest)
    requires Drivable(f, req) && f'.epoch == f.epoch && f'.boots == f.boots
    requires forall i | 0 <= i < |req.members| ::
      req.members[i].sequence in f'.seqs && f'.seqs[req.members[i].sequence] == f.seqs[req.members[i].sequence]
    ensures Drivable(f', req)
  {
    forall i | 0 <= i < |req.members| ensures OutOn(f', req, req.members[i]) {
      assert OutOn(f, req, req.members[i]);
    }
  }

  /** What dispatching a group may do. */
  ghost predicate Sent(f: F.FabricState, f': F.FabricState, cs: seq<G.Candidate>, out: seq<ExecutionRequest>) {
    OnlyTouches(f, f', cs) && AllDrivable(f', out) && Within(out, cs)
  }

  lemma OneSent(f: F.FabricState, f': F.FabricState, cs: seq<G.Candidate>, req: ExecutionRequest)
    requires OnlyTouches(f, f', cs) && Drivable(f', req) && cs != [] && |req.members| == |cs|
    requires forall i | 0 <= i < |cs| :: req.members[i].sequence == cs[i].sequence
    ensures Sent(f, f', cs, [req])
  {
    forall r, i | 0 <= r < |[req]| && 0 <= i < |[req][r].members| ensures Listed(cs, [req][r].members[i].sequence) {
      assert cs[i].sequence == req.members[i].sequence;
    }
  }

  lemma GroupSent(cfg: F.Config, f: F.FabricState, workerOrder: seq<nat>, g: G.Group)
    requires Offered(f, g.members) && f.next.dispatch != NULL
    ensures var (f', out) := F.DispatchGroup(cfg, f, workerOrder, g); Sent(f, f', g.members, out)
  {
    var (f', out) := F.DispatchGroup(cfg, f, workerOrder, g);
    if out == [] {
      MoveTouches(f, g.members, Ready);
    } else {
      var w := f.workers[F.Place(f, workerOrder, g.key).value];
      SendTouches(f, w, g);
      forall i | 0 <= i < |g.members| ensures g.members[i].sequence in f'.seqs
        && On(f.next.dispatch, f'.seqs[g.members[i].sequence]) {
        SendPutsOut(f, w, g, i);
      }
      SentDrivable(f, f', g.members, out[0]);
      OneSent(f, f', g.members, out[0]);
    }
  }

  lemma SentTrans(f: F.FabricState, f1: F.FabricState, f2: F.FabricState, a: seq<G.Candidate>, b: seq<G.Candidate>,
                  out: seq<ExecutionRequest>, more: seq<ExecutionRequest>)
    requires Sent(f, f1, a, out) && Sent(f1, f2, b, more) && GP.Distinct(a + b)
    ensures Sent(f, f2, a + b, out + more)
  {
    TouchesTrans(f, f1, f2, a, b);
    forall r | 0 <= r < |out| ensures Drivable(f2, out[r]) {
      forall i | 0 <= i < |out[r].members|
        ensures out[r].members[i].sequence in f2.seqs
          && f2.seqs[out[r].members[i].sequence] == f1.seqs[out[r].members[i].sequence]
      {
        Elsewhere(a, b, out[r].members[i].sequence);
        assert OutOn(f1, out[r], out[r].members[i]);
      }
      DrivableStays(f1, f2, out[r]);
    }
    AllSeparate(a, b, out, more);
    WithinBoth(a, b, out, more);
  }

  lemma Elsewhere(a: seq<G.Candidate>, b: seq<G.Candidate>, id: nat)
    requires GP.Distinct(a + b) && Listed(a, id)
    ensures forall j | 0 <= j < |b| :: b[j].sequence != id
  {
    var i :| 0 <= i < |a| && a[i].sequence == id;
    forall j | 0 <= j < |b| ensures b[j].sequence != id {
      assert (a + b)[i].sequence != (a + b)[|a| + j].sequence;
    }
  }

  lemma AllSeparate(a: seq<G.Candidate>, b: seq<G.Candidate>, out: seq<ExecutionRequest>, more: seq<ExecutionRequest>)
    requires GP.Distinct(a + b) && Within(out, a) && Within(more, b)
    requires (forall r, s | 0 <= r < s < |out| :: Separate(out[r], out[s]))
      && (forall r, s | 0 <= r < s < |more| :: Separate(more[r], more[s]))
    ensures forall r, s | 0 <= r < s < |out + more| :: Separate((out + more)[r], (out + more)[s])
  {
    forall r, s | 0 <= r < s < |out + more| ensures Separate((out + more)[r], (out + more)[s]) {
      if r < |out| <= s {
        var x, y := out[r], more[s - |out|];
        forall i, j | 0 <= i < |x.members| && 0 <= j < |y.members|
          ensures x.members[i].sequence != y.members[j].sequence {
          assert Listed(a, x.members[i].sequence) && Listed(b, y.members[j].sequence);
          Elsewhere(a, b, x.members[i].sequence);
        }
      }
    }
  }

  lemma WithinBoth(a: seq<G.Candidate>, b: seq<G.Candidate>, out: seq<ExecutionRequest>, more: seq<ExecutionRequest>)
    requires Within(out, a) && Within(more, b)
    ensures Within(out + more, a + b)
  {
    var all := out + more;
    forall r, i | 0 <= r < |all| && 0 <= i < |all[r].members| ensures Listed(a + b, all[r].members[i].sequence) {
      var id := all[r].members[i].sequence;
      if r < |out| {
        assert all[r] == out[r];
        var k :| 0 <= k < |a| && a[k].sequence == id;
        assert (a + b)[k].sequence == id;
      } else {
        assert all[r] == more[r - |out|];
        var k :| 0 <= k < |b| && b[k].sequence == id;
        assert (a + b)[|a| + k].sequence == id;
      }
    }
  }

  lemma OfferedStays(f: F.FabricState, f': F.FabricState, cs: seq<G.Candidate>, touched: seq<G.Candidate>)
    requires Offered(f, cs) && OnlyTouches(f, f', touched)
    ensures Offered(f', cs)
  {
  }

  /** Each group is dispatched in a state that offers its members. */
  lemma {:induction false} GroupsSent(cfg: F.Config, f: F.FabricState, workerOrder: seq<nat>, groups: seq<G.Group>)
    requires FI.Inv(cfg, f) && Offered(f, GP.AllMembers(groups))
    ensures var (f', out) := F.DispatchAll(cfg, f, workerOrder, groups); Sent(f, f', GP.AllMembers(groups), out)
  {
    if groups != [] {
      var front, g := groups[..|groups| - 1], groups[|groups| - 1];
      var a, b := GP.AllMembers(front), g.members;
      OfferedParts(f, a, b);
      GroupsSent(cfg, f, workerOrder, front);
      var (f1, out) := F.DispatchAll(cfg, f, workerOrder, front);
      OfferedStays(f, f1, b, a);
      NextDispatch(cfg, f, workerOrder, front);
      GroupSent(cfg, f1, workerOrder, g);
      var (f2, more) := F.DispatchGroup(cfg, f1, workerOrder, g);
      SentTrans(f, f1, f2, a, b, out, more);
    }
  }

  lemma OfferedParts(f: F.FabricState, a: seq<G.Candidate>, b: seq<G.Candidate>)
    requires Offered(f, a + b)
    ensures Offered(f, a) && Offered(f, b)
  {
    forall i | 0 <= i < |a| ensures a[i] == (a + b)[i] {}
    forall i | 0 <= i < |b| ensures b[i] == (a + b)[|a| + i] {}
    forall i, j | 0 <= i < j < |b| ensures b[i].sequence != b[j].sequence {
      assert (a + b)[|a| + i].sequence != (a + b)[|a| + j].sequence;
    }
  }

  lemma {:induction false} NextDispatch(cfg: F.Config, f: F.FabricState, workerOrder: seq<nat>, groups: seq<G.Group>)
    requires f.next.dispatch >= 1
    ensures F.DispatchAll(cfg, f, workerOrder, groups).0.next.dispatch >= 1
  {
    if groups != [] {
      var front, g := groups[..|groups| - 1], groups[|groups| - 1];
      NextDispatch(cfg, f, workerOrder, front);
      var f1 := F.DispatchAll(cfg, f, workerOrder, front).0;
      MoveCounters(f1, g.members, Ready);
      if F.Place(f1, workerOrder, g.key).Some? && F.Place(f1, workerOrder, g.key).value in f1.workers {
        SendCounters(f1, f1.workers[F.Place(f1, workerOrder, g.key).value], g);
      }
    }
  }

  lemma {:induction false} MoveCounters(f: F.FabricState, cs: seq<G.Candidate>, to: SequenceState)
    ensures F.MoveAll(f, cs, to).next == f.next
  {
    if cs != [] {
      MoveCounters(f, cs[..|cs| - 1], to);
    }
  }

  lemma {:induction false} BindCounters(f: F.FabricState, cs: seq<G.Candidate>, d: nat, worker: nat, rid: nat)
    ensures F.BindAll(f, cs, d, worker, rid).next == f.next
  {
    if cs != [] {
      BindCounters(f, cs[..|cs| - 1], d, worker, rid);
    }
  }

  lemma SendCounters(f: F.FabricState, w: F.Worker, g: G.Group)
    ensures F.SendTo(f, w, g).next.dispatch == f.next.dispatch + 1
  {
    var f0 := F.Booked(f, w, g);
    BindCounters(f0, g.members, f.next.dispatch, w.id, f.memory.nextReservation);
  }

  /** Every scheduling pass leaves requests that can be driven one after another. */
  lemma ScheduleDrivable(cfg: F.Config, f: F.FabricState, now: int, order: seq<nat>, workerOrder: seq<nat>,
                         score: map<nat, real>)
    requires FI.Inv(cfg, f) && NoRepeats(order)
    ensures var (f', out) := F.Schedule(cfg, f, now, order, workerOrder, score); AllDrivable(f', out)
  {
    var f1 := F.Advance(f, now, order);
    FI.AdvanceCalm(cfg, f, now, order);
    FI.CalmKeeps(cfg, f, f1);
    FS.CollectCalm(cfg, f1, order, workerOrder, score);
    CollectOffers(f1, order, workerOrder, score);
    var (f2, cs) := F.Collect(f1, order, workerOrder, score);
    FI.CalmKeeps(cfg, f1, f2);
    FormedDrivable(cfg, f2, cs, workerOrder);
  }

  lemma FormedDrivable(cfg: F.Config, f: F.FabricState, cs: seq<G.Candidate>, workerOrder: seq<nat>)
    requires FI.Inv(cfg, f) && Offered(f, cs)
    ensures var groups := G.FormGroups(cfg.limits, cfg.keyText, cs);
      var (f', out) := F.DispatchAll(cfg, F.MoveGroups(f, groups, Grouped), workerOrder, groups);
      AllDrivable(f', out)
  {
    var groups := G.FormGroups(cfg.limits, cfg.keyText, cs);
    GP.GroupFormation(cfg.limits, cfg.keyText, cs);
    PartOffered(f, GP.AllMembers(groups), cs);
    GroupedTouches(f, groups, Grouped);
    var f3 := F.MoveGroups(f, groups, Grouped);
    OfferedStays(f, f3, GP.AllMembers(groups), GP.AllMembers(groups));
    FS.MoveGroupsCalm(cfg, f, groups, Grouped);
    FI.CalmKeeps(cfg, f, f3);
    GroupsSent(cfg, f3, workerOrder, groups);
  }

  // ---------------------------------------------------------------------------
  // What a scheduling pass leaves as it was

  /** The names of the registered workers. */
  function Names(f: F.FabricState): set<nat> {
    set k | k in f.workers :: f.workers[k].id
  }

  predicate SameWork(s: F.Sequence, t: F.Sequence) {
    t.tally == s.tally && t.kv == s.kv && t.req == s.req && t.attempt == s.attempt
  }

  /** No token, attempt, boot or epoch has changed, and no worker has been added. */
  ghost predicate Carried(f: F.FabricState, f': F.FabricState) {
    && f'.seqs.Keys == f.seqs.Keys && f'.epoch == f.epoch && f'.boots == f.boots && Names(f') <= Names(f)
    && (forall id | id in f.seqs :: SameWork(f.seqs[id], f'.seqs[id]))
  }

  lemma CarriedTrans(f: F.FabricState, f1: F.FabricState, f2: F.FabricState)
    requires Carried(f, f1) && Carried(f1, f2)
    ensures Carried(f, f2)
  {
    forall id | id in f.seqs ensures SameWork(f.seqs[id], f2.seqs[id]) {
      assert SameWork(f.seqs[id], f1.seqs[id]) && SameWork(f1.seqs[id], f2.seqs[id]);
    }
  }

  lemma OneCarried(f: F.FabricState, f': F.FabricState, id: nat)
    requires id in f.seqs && id in f'.seqs && f'.seqs == f.seqs[id := f'.seqs[id]] && f'.workers == f.workers
    requires f'.epoch == f.epoch && f'.boots == f.boots && SameWork(f.seqs[id], f'.seqs[id])
    ensures Carried(f, f')
  {
  }

  lemma CloseCarries(f: F.FabricState, id: nat, to: SequenceState)
    requires id in f.seqs
    ensures Carried(f, F.Close(f, id, to)) && F.Close(f, id, to).next == f.next
  {
    OneCarried(f, F.Close(f, id, to), id);
  }

  lemma SettleCarries(f: F.FabricState, now: int, id: nat)
    ensures Carried(f, F.Settle(f, now, id)) && F.Settle(f, now, id).next == f.next
  {
    if id in f.seqs {
      CloseCarries(f, id, DeadlineExpired);
      CloseCarries(f, id, Cancelled);
    }
  }

  lemma {:induction false} AdvanceCarries(f: F.FabricState, now: int, order: seq<nat>)
    ensures Carried(f, F.Advance(f, now, order)) && F.Advance(f, now, order).next == f.next
  {
    if order != [] {
      var f1 := F.Advance(f, now, order[..|order| - 1]);
      AdvanceCarries(f, now, order[..|order| - 1]);
      SettleCarries(f1, now, order[|order| - 1]);
      CarriedTrans(f, f1, F.Advance(f, now, order));
    }
  }

  lemma CollectOneCarries(f: F.FabricState, id: nat, workerOrder: seq<nat>, score: map<nat, real>)
    ensures var f' := F.CollectOne(f, id, workerOrder, score).0; Carried(f, f') && f'.next == f.next
  {
    if id in f.seqs {
      CloseCarries(f, id, Completed);
    }
  }

  lemma {:induction false} CollectCarries(f: F.FabricState, order: seq<nat>, workerOrder: seq<nat>,
                                          score: map<nat, real>)
    ensures var f' := F.Collect(f, order, workerOrder, score).0; Carried(f, f') && f'.next == f.next
  {
    if order != [] {
      var f1 := F.Collect(f, order[..|order| - 1], workerOrder, score).0;
      CollectCarries(f, order[..|order| - 1], workerOrder, score);
      CollectOneCarries(f1, order[|order| - 1], workerOrder, score);
      CarriedTrans(f, f1, F.Collect(f, order, workerOrder, score).0);
    }
  }

  lemma {:induction false} MoveCarries(f: F.FabricState, cs: seq<G.Candidate>, to: SequenceState)
    ensures Carried(f, F.MoveAll(f, cs, to)) && F.MoveAll(f, cs, to).next == f.next
  {
    if cs != [] {
      var f1, f2 := F.MoveAll(f, cs[..|cs| - 1], to), F.MoveAll(f, cs, to);
      MoveCarries(f, cs[..|cs| - 1], to);
      if cs[|cs| - 1].sequence in f1.seqs {
        OneCarried(f1, f2, cs[|cs| - 1].sequence);
      }
      CarriedTrans(f, f1, f2);
    }
  }

  lemma {:induction false} GroupsCarry(f: F.FabricState, groups: seq<G.Group>, to: SequenceState)
    ensures Carried(f, F.MoveGroups(f, groups, to)) && F.MoveGroups(f, groups, to).next == f.next
  {
    if groups != [] {
      var f1, f2 := F.MoveGroups(f, groups[..|groups| - 1], to), F.MoveGroups(f, groups, to);
      GroupsCarry(f, groups[..|groups| - 1], to);
      MoveCarries(f1, groups[|groups| - 1].members, to);
      CarriedTrans(f, f1, f2);
    }
  }

  lemma {:induction false} BindCarries(f: F.FabricState, cs: seq<G.Candidate>, d: nat, worker: nat, rid: nat)
    ensures Carried(f, F.BindAll(f, cs, d, worker, rid)) && F.BindAll(f, cs, d, worker, rid).workers == f.workers
  {
    if cs != [] {
      var f1, f2 := F.BindAll(f, cs[..|cs| - 1], d, worker, rid), F.BindAll(f, cs, d, worker, rid);
      BindCarries(f, cs[..|cs| - 1], d, worker, rid);
      if cs[|cs| - 1].sequence in f1.seqs {
        OneCarried(f1, f2, cs[|cs| - 1].sequence);
      }
      CarriedTrans(f, f1, f2);
    }
  }

  lemma SendCarries(f: F.FabricState, k: nat, g: G.Group)
    requires k in f.workers
    ensures Carried(f, F.SendTo(f, f.workers[k], g))
  {
    var w := f.workers[k];
    var f0 := F.Booked(f, w, g);
    var f1 := F.BindAll(f0, g.members, f.next.dispatch, w.id, f.memory.nextReservation);
    BindCarries(f0, g.members, f.next.dispatch, w.id, f.memory.nextReservation);
    assert w.id in Names(f);
    assert Carried(f, f0);
    CarriedTrans(f, f0, f1);
    assert Carried(f1, F.SendTo(f, w, g));
    CarriedTrans(f, f1, F.SendTo(f, w, g));
  }

  function Boot(f: F.FabricState, w: nat): nat {
    if w in f.boots then f.boots[w] else NULL
  }

  /** The request goes out as dispatch `d`, under the current epoch, to a worker as it is booted. */
  predicate Addressed(f: F.FabricState, req: ExecutionRequest, d: nat) {
    req.dispatch == d && req.epoch == f.epoch && req.worker in Names(f) && req.workerBoot == Boot(f, req.worker)
  }

  /** Requests take the dispatch ids from the next one on. */
  ghost predicate Numbered(f: F.FabricState, f': F.FabricState, out: seq<ExecutionRequest>) {
    && f'.next.dispatch == f.next.dispatch + |out|
    && (forall r | 0 <= r < |out| :: Addressed(f, out[r], f.next.dispatch + r))
  }

  lemma GroupCarried(cfg: F.Config, f: F.FabricState, workerOrder: seq<nat>, g: G.Group)
    ensures var (f', out) := F.DispatchGroup(cfg, f, workerOrder, g); Carried(f, f') && Numbered(f, f', out)
  {
    var (f', out) := F.DispatchGroup(cfg, f, workerOrder, g);
    MoveCarries(f, g.members, Ready);
    if out != [] {
      var k := F.Place(f, workerOrder, g.key).value;
      SendCarries(f, k, g);
      SendCounters(f, f.workers[k], g);
      assert f.workers[k].id in Names(f);
    }
  }

  lemma NumberedTrans(f: F.FabricState, f1: F.FabricState, f2: F.FabricState, out: seq<ExecutionRequest>,
                      more: seq<ExecutionRequest>)
    requires Carried(f, f1) && Numbered(f, f1, out) && Numbered(f1, f2, more)
    ensures Numbered(f, f2, out + more)
  {
    forall r | 0 <= r < |out + more| ensures Addressed(f, (out + more)[r], f.next.dispatch + r) {
      if r >= |out| {
        assert Addressed(f1, more[r - |out|], f1.next.dispatch + (r - |out|));
      } else {
        assert Addressed(f, out[r], f.next.dispatch + r);
      }
    }
  }

  lemma {:induction false} DispatchCarried(cfg: F.Config, f: F.FabricState, workerOrder: seq<nat>,
                                           groups: seq<G.Group>)
    ensures var (f', out) := F.DispatchAll(cfg, f, workerOrder, groups); Carried(f, f') && Numbered(f, f', out)
  {
    if groups != [] {
      var front, g := groups[..|groups| - 1], groups[|groups| - 1];
      DispatchCarried(cfg, f, workerOrder, front);
      var (f1, out) := F.DispatchAll(cfg, f, workerOrder, front);
      GroupCarried(cfg, f1, workerOrder, g);
      var (f2, more) := F.DispatchGroup(cfg, f1, workerOrder, g);
      CarriedTrans(f, f1, f2);
      NumberedTrans(f, f1, f2, out, more);
    }
  }

  /** A pass renews no attempt and moves no token, and numbers what it sends out. */
  lemma ScheduleCarried(cfg: F.Config, f: F.FabricState, now: int, order: seq<nat>, workerOrder: seq<nat>,
                        score: map<nat, real>)
    ensures var (f', out) := F.Schedule(cfg, f, now, order, workerOrder, score);
      Carried(f, f') && Numbered(f, f', out)
  {
    var f1 := F.Advance(f, now, order);
    AdvanceCarries(f, now, order);
    var (f2, cs) := F.Collect(f1, order, workerOrder, score);
    CollectCarries(f1, order, workerOrder, score);
    CarriedTrans(f, f1, f2);
    var groups := G.FormGroups(cfg.limits, cfg.keyText, cs);
    var f3 := F.MoveGroups(f2, groups, Grouped);
    GroupsCarry(f2, groups, Grouped);
    CarriedTrans(f, f2, f3);
    DispatchCarried(cfg, f3, workerOrder, groups);
    var (f4, out) := F.DispatchAll(cfg, f3, workerOrder, groups);
    CarriedTrans(f, f3, f4);
    NumberedTrans(f, f3, f4, [], out);
    assert [] + out == out;
  }
}
