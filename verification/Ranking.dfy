/** Who runs first: what a scheduling pass makes of scores and sequence ids. */
module Ranking {
  import opened Types
  import opened Grouping
  import GP = GroupingProofs
  import F = Fabric
  import L = Lifecycle
  import M = Memory
  import A = Answers
  import EF = Effects
  import PS = PumpSchedule

  /** The higher score first, and of equal scores the lower sequence id. */
  predicate Outranks(a: Candidate, b: Candidate) {
    a.score > b.score || (a.score == b.score && a.sequence < b.sequence)
  }

  /** By rank, best first. */
  predicate Ranked(ms: seq<Candidate>) {
    forall i, j | 0 <= i < j < |ms| :: Outranks(ms[i], ms[j])
  }

  function Elements(ms: seq<Candidate>): set<Candidate> {
    set m | m in ms
  }

  /** The members of one tenant. */
  function Share(ms: seq<Candidate>, tenant: nat): set<Candidate> {
    set m | m in ms && m.tenant == tenant
  }

  function Room(lim: GroupLimits): nat {
    if lim.maxSequences == 0 then 1 else lim.maxSequences
  }

  predicate TooSlow(lim: GroupLimits, c: Candidate) {
    lim.maxLatencyClass != 4 && c.latencyClass > lim.maxLatencyClass
  }

  /** The members leave no room, and each of them outranks `c`. */
  ghost predicate Full(lim: GroupLimits, ms: seq<Candidate>, c: Candidate) {
    |ms| == Room(lim) && forall m | m in ms :: Outranks(m, c)
  }

  /** The tenant of `c` has its share, and each of its members outranks `c`. */
  ghost predicate ShareFull(lim: GroupLimits, ms: seq<Candidate>, c: Candidate) {
    && lim.maxTenantShare != 0 && |Share(ms, c.tenant)| == lim.maxTenantShare
    && forall m | m in ms && m.tenant == c.tenant :: Outranks(m, c)
  }

  /**
   `ms` is what the candidates of key text `t` may expect of their group: those and no others,
   by rank, within the limits; and nobody is left out but by better ones, or by being too slow.
   */
  ghost predicate Fair(lim: GroupLimits, text: CompatibilityKey -> string, cs: seq<Candidate>, t: string,
                       ms: seq<Candidate>) {
    && Ranked(ms) && |ms| <= Room(lim)
    && (forall m | m in ms :: m in cs && text(m.key) == t && !TooSlow(lim, m))
    && (lim.maxTenantShare != 0 ==> forall tenant: nat :: |Share(ms, tenant)| <= lim.maxTenantShare)
    && (forall c | c in cs && text(c.key) == t && c !in ms ::
          Full(lim, ms, c) || ShareFull(lim, ms, c) || TooSlow(lim, c))
  }

  // ---------------------------------------------------------------------------
  // The groups that are formed are fair

  lemma ShareNext(ms: seq<Candidate>, m: Candidate, tenant: nat)
    requires m !in ms
    ensures |Share(ms + [m], tenant)| == |Share(ms, tenant)| + if m.tenant == tenant then 1 else 0
  {
    if m.tenant == tenant {
      assert Share(ms + [m], tenant) == Share(ms, tenant) + {m};
    } else {
      assert Share(ms + [m], tenant) == Share(ms, tenant);
    }
  }

  lemma LastIsNew(ms: seq<Candidate>)
    requires Ranked(ms) && ms != []
    ensures ms == ms[..|ms| - 1] + [ms[|ms| - 1]] && ms[|ms| - 1] !in ms[..|ms| - 1]
  {
    forall i | 0 <= i < |ms| - 1 ensures ms[i] != ms[|ms| - 1] {
      assert Outranks(ms[i], ms[|ms| - 1]);
    }
  }

  lemma {:induction false} ShareCounts(ms: seq<Candidate>, tenant: nat)
    requires Ranked(ms)
    ensures |Share(ms, tenant)| == TenantShare(ms, tenant)
  {
    if ms == [] {
      assert Share(ms, tenant) == {};
    } else {
      ShareCounts(ms[..|ms| - 1], tenant);
      LastIsNew(ms);
      ShareNext(ms[..|ms| - 1], ms[|ms| - 1], tenant);
    }
  }

  ghost predicate AllRanked(groups: seq<Group>) {
    forall g | g in groups :: Ranked(g.members)
  }

  lemma OfferRanked(lim: GroupLimits, text: CompatibilityKey -> string, groups: seq<Group>, c: Candidate)
    requires AllRanked(groups) && forall g, m | g in groups && m in g.members :: Precedes(m, c)
    ensures AllRanked(Offer(lim, text, groups, c))
  {
    var i := IndexOf(groups, text, text(c.key));
    var open := if i < |groups| then groups else groups + [Group(c.key, [])];
    assert AllRanked(open);
    forall g | g in Offer(lim, text, groups, c) ensures Ranked(g.members) {
      if g !in open {
        assert open[i] in open && (open[i] in groups || open[i].members == []);
        RankedNext(open[i].members, c);
      }
    }
  }

  lemma RankedNext(ms: seq<Candidate>, c: Candidate)
    requires Ranked(ms) && forall m | m in ms :: Precedes(m, c)
    ensures Ranked(ms + [c])
  {
    forall i, j | 0 <= i < j < |ms + [c]| ensures Outranks((ms + [c])[i], (ms + [c])[j]) {
      assert ms[i] in ms;
    }
  }

  lemma {:induction false} PackRanked(lim: GroupLimits, text: CompatibilityKey -> string, cs: seq<Candidate>)
    requires GP.Sorted(cs)
    ensures AllRanked(Pack(lim, text, cs))
  {
    if cs != [] {
      var front, c := cs[..|cs| - 1], cs[|cs| - 1];
      PackRanked(lim, text, front);
      var groups := Pack(lim, text, front);
      forall g, m | g in groups && m in g.members ensures Precedes(m, c) {
        GP.PackTakesCandidates(lim, text, front, g, m);
      }
      OfferRanked(lim, text, groups, c);
    }
  }

  lemma RefusedFairly(lim: GroupLimits, text: CompatibilityKey -> string, g: Group, c: Candidate)
    requires Ranked(g.members) && GP.Refused(lim, text, g, c)
    ensures Full(lim, g.members, c) || ShareFull(lim, g.members, c) || TooSlow(lim, c)
  {
    ShareCounts(g.members, c.tenant);
  }

  lemma WithinFairly(lim: GroupLimits, text: CompatibilityKey -> string, g: Group)
    requires Ranked(g.members) && GP.GroupOk(lim, text, g)
    ensures |g.members| <= Room(lim) && forall m | m in g.members :: text(m.key) == text(g.key) && !TooSlow(lim, m)
    ensures lim.maxTenantShare != 0 ==> forall tenant: nat :: |Share(g.members, tenant)| <= lim.maxTenantShare
  {
    forall tenant: nat ensures |Share(g.members, tenant)| == TenantShare(g.members, tenant) {
      ShareCounts(g.members, tenant);
    }
  }

  lemma LeftOutFairly(lim: GroupLimits, text: CompatibilityKey -> string, groups: seq<Group>, g: Group, c: Candidate)
    requires GP.GroupsOk(lim, text, groups) && g in groups && Ranked(g.members)
    requires GP.Explained(lim, text, groups, c) && text(c.key) == text(g.key) && c !in g.members
    ensures Full(lim, g.members, c) || ShareFull(lim, g.members, c) || TooSlow(lim, c)
  {
    var i :| 0 <= i < |groups| && GP.Settled(lim, text, groups[i], c);
    assert GP.GroupOk(lim, text, groups[i]) && text(groups[i].key) == text(g.key);
    assert groups[i] == g;
    RefusedFairly(lim, text, g, c);
  }

  /** Every group a pass forms is fair. */
  lemma FormedFairly(lim: GroupLimits, text: CompatibilityKey -> string, cs: seq<Candidate>, g: Group)
    requires GP.Distinct(cs) && g in FormGroups(lim, text, cs)
    ensures Fair(lim, text, cs, text(g.key), g.members)
  {
    GP.SortSorts(cs);
    PackRanked(lim, text, Sort(cs));
    GP.GroupFormation(lim, text, cs);
    GP.MembersAreCandidates(lim, text, cs);
    WithinFairly(lim, text, g);
    forall c | c in cs && text(c.key) == text(g.key) && c !in g.members
      ensures Full(lim, g.members, c) || ShareFull(lim, g.members, c) || TooSlow(lim, c)
    {
      LeftOutFairly(lim, text, FormGroups(lim, text, cs), g, c);
    }
  }

  /** Every candidate has a group of its key text. */
  lemma EveryKeyHasGroup(lim: GroupLimits, text: CompatibilityKey -> string, cs: seq<Candidate>, c: Candidate)
    returns (g: Group)
    requires GP.Distinct(cs) && c in cs
    ensures g in FormGroups(lim, text, cs) && text(g.key) == text(c.key)
  {
    var groups := FormGroups(lim, text, cs);
    GP.GroupFormation(lim, text, cs);
    assert GP.Explained(lim, text, groups, c);
    var i :| 0 <= i < |groups| && GP.Settled(lim, text, groups[i], c);
    assert GP.GroupOk(lim, text, groups[i]);
    g := groups[i];
  }

  /** The key is the one of the best candidate of its text. */
  ghost predicate BestKey(text: CompatibilityKey -> string, cs: seq<Candidate>, k: CompatibilityKey) {
    exists c | c in cs && c.key == k :: forall d | d in cs && d != c && text(d.key) == text(k) :: Outranks(c, d)
  }

  lemma PackedText(lim: GroupLimits, text: CompatibilityKey -> string, cs: seq<Candidate>, j: nat)
    requires GP.Sorted(cs) && j < |cs|
    ensures exists g | g in Pack(lim, text, cs) :: text(g.key) == text(cs[j].key)
  {
    var groups := Pack(lim, text, cs);
    GP.PackExplains(lim, text, cs, j);
    GP.PackKeepsGroups(lim, text, cs);
    var i :| 0 <= i < |groups| && GP.Settled(lim, text, groups[i], cs[j]);
    assert GP.GroupOk(lim, text, groups[i]);
  }

  lemma OfferedKey(lim: GroupLimits, text: CompatibilityKey -> string, groups: seq<Group>, c: Candidate, g: Group)
    requires g in Offer(lim, text, groups, c)
    ensures (exists h | h in groups :: h.key == g.key)
      || (g.key == c.key && forall h | h in groups :: text(h.key) != text(c.key))
  {
    GP.IndexOfFinds(groups, text, text(c.key));
    var i := IndexOf(groups, text, text(c.key));
    var open := if i < |groups| then groups else groups + [Group(c.key, [])];
    var k :| 0 <= k < |Offer(lim, text, groups, c)| && Offer(lim, text, groups, c)[k] == g;
    assert g.key == open[k].key;
    if k < |groups| {
      assert groups[k] in groups;
    }
  }

  lemma {:induction false} PackedKey(lim: GroupLimits, text: CompatibilityKey -> string, cs: seq<Candidate>, g: Group)
    returns (k: nat)
    requires GP.Sorted(cs) && g in Pack(lim, text, cs)
    ensures k < |cs| && cs[k].key == g.key && forall j | 0 <= j < k :: text(cs[j].key) != text(g.key)
  {
    var front, c := cs[..|cs| - 1], cs[|cs| - 1];
    var groups := Pack(lim, text, front);
    OfferedKey(lim, text, groups, c, g);
    if h :| h in groups && h.key == g.key {
      k := PackedKey(lim, text, front, h);
    } else {
      k := |front|;
      forall j | 0 <= j < k ensures text(cs[j].key) != text(g.key) {
        PackedText(lim, text, front, j);
      }
    }
  }

  lemma FormedKey(lim: GroupLimits, text: CompatibilityKey -> string, cs: seq<Candidate>, g: Group)
    requires GP.Distinct(cs) && g in FormGroups(lim, text, cs)
    ensures BestKey(text, cs, g.key)
  {
    var all := Sort(cs);
    GP.SortSorts(cs);
    var k := PackedKey(lim, text, all, g);
    GP.SortElements(cs, all[k]);
    forall d | d in cs && d != all[k] && text(d.key) == text(g.key) ensures Outranks(all[k], d) {
      GP.SortElements(cs, d);
      var j :| 0 <= j < |all| && all[j] == d;
    }
  }

  // ---------------------------------------------------------------------------
  // Nothing else is fair

  lemma Smaller(a: set<Candidate>, b: set<Candidate>, c: Candidate)
    requires a <= b && c in b && c !in a
    ensures |a| < |b|
  {
    assert |b - {c}| == |b| - 1 && a <= b - {c};
    Fewer(a, b - {c});
  }

  lemma Fewer(a: set<Candidate>, b: set<Candidate>)
    requires a <= b
    ensures |a| <= |b|
  {
    assert b == a + (b - a);
  }

  lemma {:induction false} AllDifferent(ms: seq<Candidate>)
    requires Ranked(ms)
    ensures |Elements(ms)| == |ms|
  {
    if ms != [] {
      var front, m := ms[..|ms| - 1], ms[|ms| - 1];
      AllDifferent(front);
      LastIsNew(ms);
      assert Elements(ms) == Elements(front) + {m};
    }
  }

  /** Two fair outcomes that agree on whoever outranks `c` agree on `c`. */
  lemma AgreeOn(lim: GroupLimits, text: CompatibilityKey -> string, cs: seq<Candidate>, t: string,
                a: seq<Candidate>, b: seq<Candidate>, c: Candidate)
    requires Fair(lim, text, cs, t, a) && Fair(lim, text, cs, t, b) && c in a
    requires forall d | d in b && Outranks(d, c) :: d in a
    ensures c in b
  {
    if c !in b {
      assert c in cs && text(c.key) == t && !TooSlow(lim, c);
      if Full(lim, b, c) {
        AllDifferent(a);
        AllDifferent(b);
        Smaller(Elements(b), Elements(a), c);
        assert false;
      } else {
        assert ShareFull(lim, b, c);
        assert |Share(a, c.tenant)| <= lim.maxTenantShare;
        Smaller(Share(b, c.tenant), Share(a, c.tenant), c);
        assert false;
      }
    }
  }

  lemma {:induction false} SameMembers(lim: GroupLimits, text: CompatibilityKey -> string, cs: seq<Candidate>,
                                       t: string, a: seq<Candidate>, b: seq<Candidate>, k: nat)
    requires GP.Sorted(cs) && k <= |cs| && Fair(lim, text, cs, t, a) && Fair(lim, text, cs, t, b)
    ensures forall i | 0 <= i < k :: cs[i] in a <==> cs[i] in b
  {
    if k > 0 {
      SameMembers(lim, text, cs, t, a, b, k - 1);
      var c := cs[k - 1];
      forall d | Outranks(d, c) ensures d in a <==> d in b {
        if d in cs {
          var i :| 0 <= i < |cs| && cs[i] == d;
          assert i < k - 1;
        }
      }
      if c in a {
        AgreeOn(lim, text, cs, t, a, b, c);
      } else if c in b {
        AgreeOn(lim, text, cs, t, b, a, c);
      }
    }
  }

  lemma OneRanking(a: seq<Candidate>, b: seq<Candidate>)
    requires Ranked(a) && Ranked(b) && forall c :: c in a <==> c in b
    ensures a == b
  {
    Single(a);
    Single(b);
    assert multiset(a) == multiset(b);
    GP.SortedUnique(a, b);
  }

  lemma {:induction false} Single(ms: seq<Candidate>)
    requires Ranked(ms)
    ensures forall c | c in ms :: multiset(ms)[c] == 1
  {
    if ms != [] {
      var front, m := ms[..|ms| - 1], ms[|ms| - 1];
      Single(front);
      LastIsNew(ms);
      assert m !in multiset(front);
    }
  }

  lemma FairSorted(lim: GroupLimits, text: CompatibilityKey -> string, cs: seq<Candidate>, t: string,
                   ms: seq<Candidate>)
    requires Fair(lim, text, cs, t, ms)
    ensures Fair(lim, text, Sort(cs), t, ms)
  {
    forall c ensures c in Sort(cs) <==> c in cs {
      GP.SortElements(cs, c);
    }
  }

  /** There is one fair outcome for the candidates of a key text; so it is the one a pass forms. */
  lemma FairIsUnique(lim: GroupLimits, text: CompatibilityKey -> string, cs: seq<Candidate>, t: string,
                     a: seq<Candidate>, b: seq<Candidate>)
    requires GP.Distinct(cs) && Fair(lim, text, cs, t, a) && Fair(lim, text, cs, t, b)
    ensures a == b
  {
    GP.SortSorts(cs);
    FairSorted(lim, text, cs, t, a);
    FairSorted(lim, text, cs, t, b);
    SameMembers(lim, text, Sort(cs), t, a, b, |Sort(cs)|);
    forall c ensures c in a <==> c in b {
      if c in Sort(cs) {
        var i :| 0 <= i < |Sort(cs)| && Sort(cs)[i] == c;
      }
    }
    OneRanking(a, b);
  }

  // ---------------------------------------------------------------------------
  // What a pass sends out

  /** `req` carries exactly the members of a fair outcome, in their order, under the key of the best candidate. */
  ghost predicate CarriesFairly(lim: GroupLimits, text: CompatibilityKey -> string, cs: seq<Candidate>,
                                req: ExecutionRequest, ms: seq<Candidate>) {
    && Fair(lim, text, cs, text(req.key), ms) && BestKey(text, cs, req.key) && |req.members| == |ms|
    && forall i | 0 <= i < |ms| :: req.members[i].sequence == ms[i].sequence
  }

  ghost predicate AllKnown(f: F.FabricState, groups: seq<Group>) {
    forall g, c | g in groups && c in g.members :: c.sequence in f.seqs
  }

  lemma {:induction false} SpecsInOrder(f: F.FabricState, ms: seq<Candidate>)
    requires forall c | c in ms :: c.sequence in f.seqs
    ensures |F.Specs(f, ms)| == |ms| && forall i | 0 <= i < |ms| :: F.Specs(f, ms)[i].sequence == ms[i].sequence
  {
    if ms != [] {
      SpecsInOrder(f, ms[..|ms| - 1]);
      assert ms[|ms| - 1] in ms;
    }
  }

  /** The request was made for a group: its key and its members, in order. */
  ghost predicate MadeFor(req: ExecutionRequest, g: Group) {
    req.key == g.key && |req.members| == |g.members|
    && forall i | 0 <= i < |g.members| :: req.members[i].sequence == g.members[i].sequence
  }

  lemma DispatchMade(cfg: F.Config, f: F.FabricState, workerOrder: seq<nat>, g: Group)
    requires AllKnown(f, [g])
    ensures var (f', out) := F.DispatchGroup(cfg, f, workerOrder, g);
      f'.seqs.Keys == f.seqs.Keys && forall r | 0 <= r < |out| :: MadeFor(out[r], g)
  {
    PS.GroupCarried(cfg, f, workerOrder, g);
    assert forall c | c in g.members :: g in [g] && c.sequence in f.seqs;
    SpecsInOrder(f, g.members);
  }

  lemma {:induction false} DispatchedFor(cfg: F.Config, f: F.FabricState, workerOrder: seq<nat>, groups: seq<Group>)
    requires AllKnown(f, groups)
    ensures var (f', out) := F.DispatchAll(cfg, f, workerOrder, groups);
      && f'.seqs.Keys == f.seqs.Keys
      && forall r | 0 <= r < |out| :: exists i | 0 <= i < |groups| :: MadeFor(out[r], groups[i])
  {
    if groups != [] {
      var front, g := groups[..|groups| - 1], groups[|groups| - 1];
      DispatchedFor(cfg, f, workerOrder, front);
      var (f1, out) := F.DispatchAll(cfg, f, workerOrder, front);
      DispatchMade(cfg, f1, workerOrder, g);
      var (f2, more) := F.DispatchGroup(cfg, f1, workerOrder, g);
      forall r | 0 <= r < |out + more| ensures exists i | 0 <= i < |groups| :: MadeFor((out + more)[r], groups[i]) {
        if r < |out| {
          var i :| 0 <= i < |front| && MadeFor(out[r], front[i]);
          assert MadeFor((out + more)[r], groups[i]);
        } else {
          assert MadeFor((out + more)[r], groups[|groups| - 1]);
        }
      }
    }
  }

  /** The device has no known size, or room for `growth` and for the floor that is to stay free. */
  predicate Roomy(f: F.FabricState, device: nat, growth: nat) {
    device in f.memory.devices ==>
      var d := f.memory.devices[device];
      || d.capacity == 0
      || (&& (growth == 0 || d.reserved + growth <= d.capacity)
          && (d.headroomFloor == 0 || d.reserved + d.headroomFloor <= d.capacity))
  }

  /** The first of the least loaded workers that can take the group has room for it. */
  ghost predicate CanGo(f: F.FabricState, workerOrder: seq<nat>, g: Group) {
    exists i | 0 <= i < |workerOrder| :: EF.LeastLoaded(f, workerOrder, g.key, i)
      && Roomy(f, f.workers[workerOrder[i]].device.id, A.DemandOf(f, g.members) % TWO64)
  }

  lemma PlacedAt(f: F.FabricState, workerOrder: seq<nat>, g: Group)
    ensures CanGo(f, workerOrder, g) <==>
      var w := F.Place(f, workerOrder, g.key);
      w.Some? && w.value in f.workers && Roomy(f, f.workers[w.value].device.id, F.Growth(f, g.members))
  {
    EF.PlacedLeastLoaded(f, workerOrder, g.key);
    A.GrowthExactly(f, g.members);
    var w := F.Place(f, workerOrder, g.key);
    if w.Some? {
      var i :| 0 <= i < |workerOrder| && workerOrder[i] == w.value && EF.LeastLoaded(f, workerOrder, g.key, i);
      forall j | 0 <= j < |workerOrder| && EF.LeastLoaded(f, workerOrder, g.key, j) ensures j == i {
      }
    }
  }

  /** A group that is not empty is sent if and only if the worker that is its turn has room. */
  lemma DispatchedExactly(cfg: F.Config, f: F.FabricState, workerOrder: seq<nat>, g: Group)
    ensures var (f', out) := F.DispatchGroup(cfg, f, workerOrder, g);
      && (out != [] <==> g.members != [] && CanGo(f, workerOrder, g))
      && (out == [] ==> f' == f.(seqs := f'.seqs))
  {
    PlacedAt(f, workerOrder, g);
    var w := F.Place(f, workerOrder, g.key);
    if w.Some? && w.value in f.workers {
      M.RoomExactly(f.memory, f.workers[w.value].device.id, F.Growth(f, g.members));
    }
    PutBack(f, g.members, L.Ready);
  }

  lemma {:induction false} PutBack(f: F.FabricState, ms: seq<Candidate>, to: L.SequenceState)
    ensures F.MoveAll(f, ms, to) == f.(seqs := F.MoveAll(f, ms, to).seqs)
  {
    if ms != [] {
      PutBack(f, ms[..|ms| - 1], to);
    }
  }

  lemma {:induction false} RequestsStay(cfg: F.Config, f: F.FabricState, workerOrder: seq<nat>, groups: seq<Group>,
                                        k: nat)
    requires k <= |groups|
    ensures F.DispatchAll(cfg, f, workerOrder, groups[..k]).1 <= F.DispatchAll(cfg, f, workerOrder, groups).1
  {
    if k == |groups| {
      assert groups[..k] == groups;
    } else {
      RequestsStay(cfg, f, workerOrder, groups[..|groups| - 1], k);
      assert groups[..|groups| - 1][..k] == groups[..k];
    }
  }

  lemma TurnAt(cfg: F.Config, f: F.FabricState, workerOrder: seq<nat>, groups: seq<Group>, k: nat)
    returns (f1: F.FabricState, out: seq<ExecutionRequest>)
    requires AllKnown(f, groups) && k < |groups|
    ensures (f1, out) == F.DispatchAll(cfg, f, workerOrder, groups[..k]) && AllKnown(f1, [groups[k]])
    ensures out + F.DispatchGroup(cfg, f1, workerOrder, groups[k]).1
      == F.DispatchAll(cfg, f, workerOrder, groups[..k + 1]).1
  {
    DispatchedFor(cfg, f, workerOrder, groups[..k]);
    var (f2, before) := F.DispatchAll(cfg, f, workerOrder, groups[..k]);
    f1, out := f2, before;
    assert groups[..k + 1][..k] == groups[..k];
  }

  lemma GoesNow(cfg: F.Config, f: F.FabricState, workerOrder: seq<nat>, g: Group)
    requires AllKnown(f, [g]) && g.members != [] && CanGo(f, workerOrder, g)
    ensures var out := F.DispatchGroup(cfg, f, workerOrder, g).1; out != [] && MadeFor(out[0], g)
  {
    DispatchedExactly(cfg, f, workerOrder, g);
    DispatchMade(cfg, f, workerOrder, g);
  }

  /** No group is passed over: whichever can go when its turn comes is sent. */
  lemma NonePassedOver(cfg: F.Config, f: F.FabricState, workerOrder: seq<nat>, groups: seq<Group>, k: nat)
    requires AllKnown(f, groups) && k < |groups| && groups[k].members != []
    requires CanGo(F.DispatchAll(cfg, f, workerOrder, groups[..k]).0, workerOrder, groups[k])
    ensures var out := F.DispatchAll(cfg, f, workerOrder, groups).1;
      exists r | 0 <= r < |out| :: MadeFor(out[r], groups[k])
  {
    var f1, before := TurnAt(cfg, f, workerOrder, groups, k);
    GoesNow(cfg, f1, workerOrder, groups[k]);
    RequestsStay(cfg, f, workerOrder, groups, k + 1);
    assert MadeFor(F.DispatchAll(cfg, f, workerOrder, groups).1[|before|], groups[k]);
  }

  lemma GroupsSent(cfg: F.Config, f: F.FabricState, workerOrder: seq<nat>, cs: seq<Candidate>, groups: seq<Group>,
                   r: nat)
    returns (i: nat)
    requires groups == FormGroups(cfg.limits, cfg.keyText, cs) && forall c | c in cs :: c.sequence in f.seqs
    requires r < |F.DispatchAll(cfg, F.MoveGroups(f, groups, L.Grouped), workerOrder, groups).1|
    ensures i < |groups|
    ensures MadeFor(F.DispatchAll(cfg, F.MoveGroups(f, groups, L.Grouped), workerOrder, groups).1[r], groups[i])
  {
    var f' := F.MoveGroups(f, groups, L.Grouped);
    PS.GroupsCarry(f, groups, L.Grouped);
    GP.MembersAreCandidates(cfg.limits, cfg.keyText, cs);
    DispatchedFor(cfg, f', workerOrder, groups);
    i :| 0 <= i < |groups| && MadeFor(F.DispatchAll(cfg, f', workerOrder, groups).1[r], groups[i]);
  }

  lemma CollectedApart(f: F.FabricState, order: seq<nat>, workerOrder: seq<nat>, score: map<nat, real>)
    returns (f': F.FabricState, cs: seq<Candidate>)
    requires PS.NoRepeats(order)
    ensures F.Collect(f, order, workerOrder, score) == (f', cs) && GP.Distinct(cs)
    ensures forall c | c in cs :: c.sequence in f'.seqs && A.Stands(f, workerOrder, score, c)
  {
    A.CollectedExactly(f, order, workerOrder, score);
    PS.CollectOffers(f, order, workerOrder, score);
    var (f1, all) := F.Collect(f, order, workerOrder, score);
    f', cs := f1, all;
  }

  /**
   Every request of a pass carries the one fair outcome for its key among the sequences that
   wait, and lists it by rank, by the scores the pass was given.
   */
  lemma SentByRank(cfg: F.Config, f: F.FabricState, now: int, order: seq<nat>, workerOrder: seq<nat>,
                   score: map<nat, real>, r: nat)
    returns (cs: seq<Candidate>, ms: seq<Candidate>)
    requires PS.NoRepeats(order) && r < |F.Schedule(cfg, f, now, order, workerOrder, score).1|
    ensures cs == F.Collect(F.Advance(f, now, order), order, workerOrder, score).1 && GP.Distinct(cs)
    ensures CarriesFairly(cfg.limits, cfg.keyText, cs, F.Schedule(cfg, f, now, order, workerOrder, score).1[r], ms)
    ensures forall c | c in cs :: A.Stands(F.Advance(f, now, order), workerOrder, score, c)
  {
    var f2, all := CollectedApart(F.Advance(f, now, order), order, workerOrder, score);
    cs := all;
    var groups := FormGroups(cfg.limits, cfg.keyText, cs);
    var i := GroupsSent(cfg, f2, workerOrder, cs, groups, r);
    FormedFairly(cfg.limits, cfg.keyText, cs, groups[i]);
    FormedKey(cfg.limits, cfg.keyText, cs, groups[i]);
    ms := groups[i].members;
  }
}
