/**
 What pumping has left to do. A dispatched member gains a token unless its acceptance key is
 the one accepted last, and then it is dispatched again under a fresh dispatch id. The key
 tells dispatch ids apart, so a sequence cannot be held up twice by the same worker before
 its next token: counting, for every token still to come, the workers that can still hold it
 up gives a load that every dispatched member makes smaller.
 */
module PumpLoad {
  import opened Types
  import opened MapSum
  import opened PumpGroup
  import opened PumpDrive
  import opened PumpSchedule
  import F = Fabric
  import E = Executor
  import K = AcceptanceKeys

  // ---------------------------------------------------------------------------
  // Keys

  /** Authorities that differ in the dispatch id alone have different keys. */
  ghost predicate DispatchTells(cfg: F.Config) {
    forall a: Authority, d: nat, pos: nat |
      a.dispatch < TWO64 && d < TWO64 && cfg.acceptKey(a.(dispatch := d), pos) == cfg.acceptKey(a, pos) ::
      a.dispatch == d
  }

  /** The program's own key does this. */
  lemma OwnKeyTells(cfg: F.Config)
    requires forall a, pos :: cfg.acceptKey(a, pos) == K.AcceptanceKey(a, pos)
    ensures DispatchTells(cfg)
  {
    forall a: Authority, d: nat, pos: nat |
      a.dispatch < TWO64 && d < TWO64 && cfg.acceptKey(a.(dispatch := d), pos) == cfg.acceptKey(a, pos)
      ensures a.dispatch == d
    {
      K.DispatchTold(a, d, pos);
    }
  }

  /** What `id` would be dispatched under, to worker `w` as dispatch `d`. */
  function AuthorityFor(f: F.FabricState, id: nat, w: nat, d: nat): Authority
    requires id in f.seqs
  {
    var s := f.seqs[id];
    Authority(f.epoch, w, Boot(f, w), id, s.kv.id, s.attempt, s.tally.generation, d)
  }

  predicate HeldUp(cfg: F.Config, f: F.FabricState, id: nat, w: nat, d: nat)
    requires id in f.seqs
  {
    Clashes(cfg, f.seqs[id].tally, AuthorityFor(f, id, w, d), f.seqs[id].tally.generated)
  }

  lemma HeldUpOnce(cfg: F.Config, f: F.FabricState, id: nat, w: nat, d: nat, d': nat)
    requires DispatchTells(cfg) && id in f.seqs && d < TWO64 && d' < TWO64
    requires HeldUp(cfg, f, id, w, d) && HeldUp(cfg, f, id, w, d')
    ensures d == d'
  {
    assert AuthorityFor(f, id, w, d).(dispatch := d') == AuthorityFor(f, id, w, d');
  }

  // ---------------------------------------------------------------------------
  // Load

  predicate Behind(cfg: F.Config, f: F.FabricState, id: nat, w: nat)
    requires id in f.seqs
  {
    exists d | 0 <= d < f.next.dispatch :: HeldUp(cfg, f, id, w, d)
  }

  lemma {:induction false} FewerIn(a: set<nat>, b: set<nat>)
    requires a <= b
    ensures |a| <= |b|
    decreases |b|
  {
    if a != {} {
      var x :| x in a;
      FewerIn(a - {x}, b - {x});
    }
  }

  /** The workers that can no longer hold up the next token of `id`. */
  ghost function Spent(cfg: F.Config, names: set<nat>, f: F.FabricState, id: nat): (r: set<nat>)
    requires id in f.seqs
    ensures |r| <= |names|
  {
    var r := set w | w in names && Behind(cfg, f, id, w);
    FewerIn(r, names);
    r
  }

  function Remaining(s: F.Sequence): nat {
    s.tally.budget.Remaining()
  }

  /** The tokens that may still be generated, over all sequences. */
  ghost function Budget(f: F.FabricState): nat {
    Total(f.seqs, Remaining)
  }

  /** How often a sequence with `left` tokens to come may still be dispatched. */
  function Tries(left: nat, workers: nat, spent: nat): (r: nat)
    requires spent <= workers
    ensures left > 0 ==> r > 0
    ensures r <= left * (workers + 1)
  {
    if left == 0 then 0 else (left - 1) * (workers + 1) + (workers + 1 - spent)
  }

  ghost function Weight(cfg: F.Config, names: set<nat>, f: F.FabricState, id: nat): nat
    requires id in f.seqs
  {
    Tries(Remaining(f.seqs[id]), |names|, |Spent(cfg, names, f, id)|)
  }

  ghost function Weights(cfg: F.Config, names: set<nat>, f: F.FabricState): map<nat, nat> {
    map id | id in f.seqs :: Weight(cfg, names, f, id)
  }

  function Itself(n: nat): nat {
    n
  }

  /** How many members may still be dispatched, when `names` are the workers. */
  ghost function Load(cfg: F.Config, names: set<nat>, f: F.FabricState): nat {
    Total(Weights(cfg, names, f), Itself)
  }

  /** `a` times `c`. */
  function Times(a: nat, c: nat): nat {
    if a == 0 then 0 else Times(a - 1, c) + c
  }

  lemma {:induction false} TimesAdd(a: nat, b: nat, c: nat)
    ensures Times(a + b, c) == Times(a, c) + Times(b, c)
  {
    if b > 0 {
      TimesAdd(a, b - 1, c);
    }
  }

  lemma {:induction false} TimesIs(a: nat, c: nat)
    ensures Times(a, c) == a * c
  {
    if a > 0 {
      TimesIs(a - 1, c);
    }
  }

  lemma {:induction false} TotalTimes(m: map<nat, nat>, n: map<nat, nat>, c: nat)
    requires m.Keys == n.Keys && forall k | k in m :: m[k] <= Times(n[k], c)
    ensures Total(m, Itself) <= Times(Total(n, Itself), c)
    decreases |m|
  {
    if m == map[] {
      assert n == map[];
    } else {
      var k :| k in m;
      TotalTake(m, Itself, k);
      TotalTake(n, Itself, k);
      TotalTimes(m - {k}, n - {k}, c);
      TimesAdd(n[k], Total(n - {k}, Itself), c);
    }
  }

  lemma LoadBound(cfg: F.Config, names: set<nat>, f: F.FabricState)
    ensures Load(cfg, names, f) <= Budget(f) * (|names| + 1)
  {
    var m, c := Weights(cfg, names, f), |names| + 1;
    var n := map id | id in f.seqs :: Remaining(f.seqs[id]);
    forall k | k in m ensures m[k] <= Times(n[k], c) {
      TimesIs(n[k], c);
    }
    TotalTimes(m, n, c);
    TotalSame(n, f.seqs, Itself, Remaining);
    TimesIs(Budget(f), c);
  }

  // ---------------------------------------------------------------------------
  // What a cycle does to one sequence

  /** Epoch and boots are the same, and dispatch ids have only been taken. */
  predicate Later(f: F.FabricState, f': F.FabricState) {
    f'.epoch == f.epoch && f'.boots == f.boots && f.next.dispatch <= f'.next.dispatch
  }

  lemma SpentGrows(cfg: F.Config, names: set<nat>, f: F.FabricState, f': F.FabricState, id: nat)
    requires id in f.seqs && id in f'.seqs && Later(f, f') && SameWork(f.seqs[id], f'.seqs[id])
    ensures Spent(cfg, names, f, id) <= Spent(cfg, names, f', id)
    ensures |Spent(cfg, names, f, id)| <= |Spent(cfg, names, f', id)|
  {
    forall w | w in Spent(cfg, names, f, id) ensures w in Spent(cfg, names, f', id) {
      var d :| 0 <= d < f.next.dispatch && HeldUp(cfg, f, id, w, d);
      assert HeldUp(cfg, f', id, w, d);
    }
    FewerIn(Spent(cfg, names, f, id), Spent(cfg, names, f', id));
  }

  lemma FewerTries(left: nat, workers: nat, spent: nat, spent': nat)
    requires spent <= spent' <= workers
    ensures Tries(left, workers, spent') <= Tries(left, workers, spent)
    ensures left > 0 && spent < spent' ==> Tries(left, workers, spent') < Tries(left, workers, spent)
  {
  }

  lemma TokenTries(left: nat, workers: nat, spent: nat, spent': nat)
    requires 0 < left && spent <= workers && spent' <= workers
    ensures Tries(left - 1, workers, spent') < Tries(left, workers, spent)
  {
    assert Tries(left - 1, workers, spent') <= (left - 1) * (workers + 1);
  }

  lemma WeightStays(cfg: F.Config, names: set<nat>, f: F.FabricState, f': F.FabricState, id: nat)
    requires id in f.seqs && id in f'.seqs && Later(f, f') && SameWork(f.seqs[id], f'.seqs[id])
    ensures Weight(cfg, names, f', id) <= Weight(cfg, names, f, id)
  {
    SpentGrows(cfg, names, f, f', id);
    FewerTries(Remaining(f.seqs[id]), |names|, |Spent(cfg, names, f, id)|, |Spent(cfg, names, f', id)|);
  }

  /** A held up member crosses one more worker off. */
  lemma HeldWeight(cfg: F.Config, names: set<nat>, f: F.FabricState, f': F.FabricState, id: nat, w: nat, d: nat)
    requires DispatchTells(cfg) && id in f.seqs && id in f'.seqs && Later(f, f') && SameWork(f.seqs[id], f'.seqs[id])
    requires w in names && f.next.dispatch <= d < f'.next.dispatch <= TWO64 && HeldUp(cfg, f, id, w, d)
    requires Remaining(f.seqs[id]) > 0
    ensures Weight(cfg, names, f', id) < Weight(cfg, names, f, id)
  {
    var a, b := Spent(cfg, names, f, id), Spent(cfg, names, f', id);
    SpentGrows(cfg, names, f, f', id);
    if w in a {
      var d' :| 0 <= d' < f.next.dispatch && HeldUp(cfg, f, id, w, d');
      HeldUpOnce(cfg, f, id, w, d, d');
    }
    assert HeldUp(cfg, f', id, w, d);
    assert w in b && a <= b - {w};
    FewerIn(a, b - {w});
    FewerTries(Remaining(f.seqs[id]), |names|, |a|, |b|);
  }

  lemma GainedWeight(cfg: F.Config, names: set<nat>, f: F.FabricState, f': F.FabricState, id: nat)
    requires id in f.seqs && id in f'.seqs && Gained(f.seqs[id], f'.seqs[id]) && !f.seqs[id].tally.budget.Exhausted()
    ensures Remaining(f'.seqs[id]) + 1 == Remaining(f.seqs[id])
    ensures Weight(cfg, names, f', id) < Weight(cfg, names, f, id)
  {
    TokenTries(Remaining(f.seqs[id]), |names|, |Spent(cfg, names, f, id)|, |Spent(cfg, names, f', id)|);
  }

  /** The member was sent out by the pass: it describes its sequence, and its dispatch id is a fresh one. */
  predicate SentOut(names: set<nat>, f: F.FabricState, f': F.FabricState, req: ExecutionRequest, m: MemberSpec) {
    && m.sequence in f.seqs && m == F.SpecOf(m.sequence, f.seqs[m.sequence])
    && !f.seqs[m.sequence].tally.budget.Exhausted()
    && req.worker in names && req.epoch == f.epoch && req.workerBoot == Boot(f, req.worker)
    && f.next.dispatch <= req.dispatch < f'.next.dispatch
  }

  lemma MovedWeight(cfg: F.Config, names: set<nat>, f: F.FabricState, f': F.FabricState, req: ExecutionRequest,
                    m: MemberSpec)
    requires DispatchTells(cfg) && Later(f, f') && f'.next.dispatch <= TWO64
    requires SentOut(names, f, f', req, m) && Moved(cfg, f, f', req, m)
    ensures Weight(cfg, names, f', m.sequence) < Weight(cfg, names, f, m.sequence)
  {
    var s := f.seqs[m.sequence];
    if Clashes(cfg, s.tally, E.AuthorityOf(req, m), s.tally.generated) {
      assert E.AuthorityOf(req, m) == AuthorityFor(f, m.sequence, req.worker, req.dispatch);
      HeldWeight(cfg, names, f, f', m.sequence, req.worker, req.dispatch);
    } else {
      GainedWeight(cfg, names, f, f', m.sequence);
    }
  }

  // ---------------------------------------------------------------------------
  // And to all of them

  /** A member and the request it goes out with. */
  datatype Sending = Sending(req: ExecutionRequest, m: MemberSpec)

  function SendingsOf(req: ExecutionRequest): seq<Sending> {
    seq(|req.members|, i requires 0 <= i < |req.members| => Sending(req, req.members[i]))
  }

  function Sendings(reqs: seq<ExecutionRequest>): seq<Sending> {
    if reqs == [] then [] else Sendings(reqs[..|reqs| - 1]) + SendingsOf(reqs[|reqs| - 1])
  }

  lemma {:induction false} SendingFrom(reqs: seq<ExecutionRequest>, k: nat) returns (r: nat, i: nat)
    requires k < |Sendings(reqs)|
    ensures r < |reqs| && i < |reqs[r].members| && Sendings(reqs)[k] == Sending(reqs[r], reqs[r].members[i])
  {
    var n := |reqs| - 1;
    if k < |Sendings(reqs[..n])| {
      r, i := SendingFrom(reqs[..n], k);
    } else {
      r, i := n, k - |Sendings(reqs[..n])|;
    }
  }

  /** No sequence is sent out twice. */
  ghost predicate Once(ss: seq<Sending>) {
    forall i, j | 0 <= i < j < |ss| :: ss[i].m.sequence != ss[j].m.sequence
  }

  lemma {:induction false} SendingsOnce(f: F.FabricState, reqs: seq<ExecutionRequest>)
    requires AllDrivable(f, reqs)
    ensures Once(Sendings(reqs)) && |Sendings(reqs)| >= |reqs|
  {
    if reqs != [] {
      var n := |reqs| - 1;
      SendingsOnce(f, reqs[..n]);
      var ss, t := Sendings(reqs), Sendings(reqs[..n]);
      forall i, j | 0 <= i < j < |ss| ensures ss[i].m.sequence != ss[j].m.sequence {
        if j < |t| {
          assert t[i].m.sequence != t[j].m.sequence;
        } else if i < |t| {
          var r, a := SendingFrom(reqs[..n], i);
          assert Separate(reqs[r], reqs[n]);
        } else {
          assert Drivable(f, reqs[n]);
        }
      }
    }
  }

  predicate Sends(ss: seq<Sending>, id: nat) {
    exists i | 0 <= i < |ss| :: ss[i].m.sequence == id
  }

  /** Smaller weights for distinct keys, and no larger one for any other, take off one per key. */
  lemma {:induction false} TotalFalls(m: map<nat, nat>, m': map<nat, nat>, ss: seq<Sending>)
    requires m'.Keys == m.Keys && Once(ss)
    requires forall i | 0 <= i < |ss| :: ss[i].m.sequence in m && m'[ss[i].m.sequence] < m[ss[i].m.sequence]
    requires forall k | k in m && !Sends(ss, k) :: m'[k] <= m[k]
    ensures Total(m', Itself) + |ss| <= Total(m, Itself)
    decreases |ss|
  {
    if ss == [] {
      TotalMonotone(m, m');
    } else {
      var front, k := ss[..|ss| - 1], ss[|ss| - 1].m.sequence;
      var mid := m'[k := m[k]];
      forall j | j in m && !Sends(front, j) ensures mid[j] <= m[j] {
        if j != k {
          assert !Sends(ss, j);
        }
      }
      TotalFalls(m, mid, front);
      TotalPut(m', Itself, k, m[k]);
    }
  }

  lemma {:induction false} TotalMonotone(m: map<nat, nat>, m': map<nat, nat>)
    requires m'.Keys == m.Keys && forall k | k in m :: m'[k] <= m[k]
    ensures Total(m', Itself) <= Total(m, Itself)
    decreases |m|
  {
    if m == map[] {
      assert m' == map[];
    } else {
      var k :| k in m;
      TotalTake(m, Itself, k);
      TotalTake(m', Itself, k);
      TotalMonotone(m - {k}, m' - {k});
    }
  }

  /** There is at least as much load as there are members out. */
  lemma {:induction false} TotalCovers(m: map<nat, nat>, ss: seq<Sending>)
    requires Once(ss) && forall i | 0 <= i < |ss| :: ss[i].m.sequence in m && m[ss[i].m.sequence] > 0
    ensures |ss| <= Total(m, Itself)
    decreases |ss|
  {
    if ss != [] {
      var front, k := ss[..|ss| - 1], ss[|ss| - 1].m.sequence;
      TotalCovers(m - {k}, front);
      TotalTake(m, Itself, k);
    }
  }

  lemma LoadCovers(cfg: F.Config, names: set<nat>, f: F.FabricState, ss: seq<Sending>)
    requires Once(ss)
    requires forall i | 0 <= i < |ss| ::
      ss[i].m.sequence in f.seqs && !f.seqs[ss[i].m.sequence].tally.budget.Exhausted()
    ensures |ss| <= Load(cfg, names, f)
  {
    TotalCovers(Weights(cfg, names, f), ss);
  }

  lemma LoadFalls(cfg: F.Config, names: set<nat>, f: F.FabricState, f': F.FabricState, ss: seq<Sending>)
    requires DispatchTells(cfg) && Later(f, f') && f'.next.dispatch <= TWO64 && f'.seqs.Keys == f.seqs.Keys && Once(ss)
    requires forall i | 0 <= i < |ss| ::
      SentOut(names, f, f', ss[i].req, ss[i].m) && Moved(cfg, f, f', ss[i].req, ss[i].m)
    requires forall id | id in f.seqs && !Sends(ss, id) :: SameWork(f.seqs[id], f'.seqs[id])
    ensures Load(cfg, names, f') + |ss| <= Load(cfg, names, f)
  {
    var m, m' := Weights(cfg, names, f), Weights(cfg, names, f');
    forall i | 0 <= i < |ss| ensures ss[i].m.sequence in m && m'[ss[i].m.sequence] < m[ss[i].m.sequence] {
      MovedWeight(cfg, names, f, f', ss[i].req, ss[i].m);
    }
    forall id | id in m && !Sends(ss, id) ensures m'[id] <= m[id] {
      WeightStays(cfg, names, f, f', id);
    }
    TotalFalls(m, m', ss);
  }

  // ---------------------------------------------------------------------------
  // The budget itself

  predicate Passes(cfg: F.Config, f: F.FabricState, s: Sending)
    requires s.m.sequence in f.seqs
  {
    var t := f.seqs[s.m.sequence].tally;
    !Clashes(cfg, t, E.AuthorityOf(s.req, s.m), t.generated)
  }

  /** How many of the members sent out have a key that is not the one accepted last. */
  ghost function Gains(cfg: F.Config, f: F.FabricState, ss: seq<Sending>): nat
    requires forall i | 0 <= i < |ss| :: ss[i].m.sequence in f.seqs
  {
    if ss == [] then 0 else
      Gains(cfg, f, ss[..|ss| - 1]) + if Passes(cfg, f, ss[|ss| - 1]) then 1 else 0
  }

  /** The member uses up one token of budget, or none when it is held up. */
  predicate Uses(cfg: F.Config, f: F.FabricState, m': map<nat, F.Sequence>, s: Sending)
    requires s.m.sequence in f.seqs
  {
    && s.m.sequence in m'
    && Remaining(m'[s.m.sequence]) + (if Passes(cfg, f, s) then 1 else 0) == Remaining(f.seqs[s.m.sequence])
  }

  lemma {:induction false} BudgetUsed(cfg: F.Config, f: F.FabricState, m': map<nat, F.Sequence>, ss: seq<Sending>)
    requires m'.Keys == f.seqs.Keys && Once(ss)
    requires forall i | 0 <= i < |ss| :: ss[i].m.sequence in f.seqs && Uses(cfg, f, m', ss[i])
    requires forall k | k in f.seqs && !Sends(ss, k) :: Remaining(m'[k]) == Remaining(f.seqs[k])
    ensures Total(m', Remaining) + Gains(cfg, f, ss) == Total(f.seqs, Remaining)
    decreases |ss|
  {
    if ss == [] {
      TotalSame(m', f.seqs, Remaining, Remaining);
    } else {
      var front, k := ss[..|ss| - 1], ss[|ss| - 1].m.sequence;
      var mid := m'[k := f.seqs[k]];
      forall j | j in f.seqs && !Sends(front, j) ensures Remaining(mid[j]) == Remaining(f.seqs[j]) {
        if j != k {
          assert !Sends(ss, j);
        }
      }
      forall i | 0 <= i < |front| ensures Uses(cfg, f, mid, front[i]) {
        assert Uses(cfg, f, m', ss[i]) && ss[i].m.sequence != k;
      }
      BudgetUsed(cfg, f, mid, front);
      TotalPut(m', Remaining, k, f.seqs[k]);
      assert Uses(cfg, f, m', ss[|ss| - 1]);
    }
  }

  lemma BudgetFalls(cfg: F.Config, f: F.FabricState, f': F.FabricState, ss: seq<Sending>)
    requires f'.seqs.Keys == f.seqs.Keys && Once(ss)
    requires forall i | 0 <= i < |ss| ::
      ss[i].m.sequence in f.seqs && Moved(cfg, f, f', ss[i].req, ss[i].m)
        && !f.seqs[ss[i].m.sequence].tally.budget.Exhausted()
    requires forall id | id in f.seqs && !Sends(ss, id) :: SameWork(f.seqs[id], f'.seqs[id])
    ensures Budget(f') + Gains(cfg, f, ss) == Budget(f)
  {
    forall i | 0 <= i < |ss| ensures Uses(cfg, f, f'.seqs, ss[i]) {
      assert Moved(cfg, f, f', ss[i].req, ss[i].m);
    }
    BudgetUsed(cfg, f, f'.seqs, ss);
  }
}
