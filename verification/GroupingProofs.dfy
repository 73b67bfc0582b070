/** What a scheduling pass guarantees about the groups it forms. */
module GroupingProofs {
  import opened Types
  import opened Grouping

  // ---------------------------------------------------------------------------
  // Sorting

  lemma {:induction false} InsertKeeps(c: Candidate, cs: seq<Candidate>)
    ensures multiset(Insert(c, cs)) == multiset(cs) + multiset{c}
  {
    if cs != [] && Precedes(c, cs[|cs| - 1]) {
      InsertKeeps(c, cs[..|cs| - 1]);
      assert cs == cs[..|cs| - 1] + [cs[|cs| - 1]];
    }
  }

  lemma {:induction false} SortKeeps(cs: seq<Candidate>)
    ensures multiset(Sort(cs)) == multiset(cs)
  {
    if cs != [] {
      SortKeeps(cs[..|cs| - 1]);
      InsertKeeps(cs[|cs| - 1], Sort(cs[..|cs| - 1]));
      assert cs == cs[..|cs| - 1] + [cs[|cs| - 1]];
    }
  }

  lemma SortElements(cs: seq<Candidate>, c: Candidate)
    ensures c in Sort(cs) <==> c in cs
  {
    SortKeeps(cs);
    assert c in multiset(Sort(cs)) <==> c in multiset(cs);
  }

  /** No two candidates are the same sequence; the collected ones come from a map. */
  predicate Distinct(cs: seq<Candidate>) {
    forall i, j | 0 <= i < j < |cs| :: cs[i].sequence != cs[j].sequence
  }

  predicate Sorted(cs: seq<Candidate>) {
    forall i, j | 0 <= i < j < |cs| :: Precedes(cs[i], cs[j])
  }

  lemma AppendSorted(cs: seq<Candidate>, last: Candidate)
    requires Sorted(cs) && forall d | d in cs :: Precedes(d, last)
    ensures Sorted(cs + [last])
  {
    var all := cs + [last];
    forall i, j | 0 <= i < j < |all| ensures Precedes(all[i], all[j]) {
      assert all[i] == cs[i] && cs[i] in cs;
    }
  }

  lemma {:induction false} InsertSorts(c: Candidate, cs: seq<Candidate>)
    requires Sorted(cs) && forall d | d in cs :: d.sequence != c.sequence
    ensures Sorted(Insert(c, cs))
    ensures forall d | d in Insert(c, cs) :: d == c || d in cs
  {
    if cs == [] {
      AppendSorted(cs, c);
    } else {
      var front, last := cs[..|cs| - 1], cs[|cs| - 1];
      assert cs == front + [last] && forall d | d in front :: d in cs;
      assert forall d | d in front :: Precedes(d, last);
      if Precedes(c, last) {
        InsertSorts(c, front);
        AppendSorted(Insert(c, front), last);
      } else {
        assert last in cs && Precedes(last, c);
        forall d | d in cs ensures Precedes(d, c) {
          assert d in front || d == last;
        }
        AppendSorted(cs, c);
      }
    }
  }

  lemma {:induction false} SortSorts(cs: seq<Candidate>)
    requires Distinct(cs)
    ensures Sorted(Sort(cs))
  {
    if cs != [] {
      var front, c := cs[..|cs| - 1], cs[|cs| - 1];
      SortSorts(front);
      forall d | d in Sort(front) ensures d.sequence != c.sequence {
        SortElements(front, d);
      }
      InsertSorts(c, Sort(front));
    }
  }

  lemma AllButLast(a: seq<Candidate>)
    requires a != []
    ensures multiset(a[..|a| - 1]) == multiset(a) - multiset{a[|a| - 1]}
  {
    assert a == a[..|a| - 1] + [a[|a| - 1]];
  }

  /** There is only one way to sort: any correct sorting procedure gives this order. */
  lemma {:induction false} SortedUnique(a: seq<Candidate>, b: seq<Candidate>)
    requires Sorted(a) && Sorted(b) && multiset(a) == multiset(b)
    ensures a == b
  {
    assert |multiset(a)| == |a| && |multiset(b)| == |b|;
    if a != [] {
      var x, y := a[|a| - 1], b[|b| - 1];
      assert x in multiset(b) && y in multiset(a);
      assert x == y;
      AllButLast(a);
      AllButLast(b);
      SortedUnique(a[..|a| - 1], b[..|b| - 1]);
    }
  }

  /** The groups do not depend on the order in which the candidates were collected. */
  lemma OrderIndependent(lim: GroupLimits, text: CompatibilityKey -> string, a: seq<Candidate>, b: seq<Candidate>)
    requires Distinct(a) && Distinct(b) && multiset(a) == multiset(b)
    ensures FormGroups(lim, text, a) == FormGroups(lim, text, b)
  {
    SortSorts(a);
    SortSorts(b);
    SortKeeps(a);
    SortKeeps(b);
    SortedUnique(Sort(a), Sort(b));
  }

  // ---------------------------------------------------------------------------
  // Packing

  lemma {:induction false} IndexOfFinds(groups: seq<Group>, text: CompatibilityKey -> string, wanted: string)
    ensures var i := IndexOf(groups, text, wanted);
      && i <= |groups|
      && (i < |groups| ==> text(groups[i].key) == wanted)
      && (forall j | 0 <= j < i :: text(groups[j].key) != wanted)
  {
    if groups != [] && text(groups[0].key) != wanted {
      IndexOfFinds(groups[1..], text, wanted);
    }
  }

  /** The members of all groups, one after another. */
  function AllMembers(groups: seq<Group>): seq<Candidate> {
    if groups == [] then [] else AllMembers(groups[..|groups| - 1]) + groups[|groups| - 1].members
  }

  lemma {:induction false} AddMember(groups: seq<Group>, i: nat, c: Candidate)
    requires i < |groups|
    ensures multiset(AllMembers(groups[i := groups[i].(members := groups[i].members + [c])]))
         == multiset(AllMembers(groups)) + multiset{c}
  {
    var after := groups[i := groups[i].(members := groups[i].members + [c])];
    var n := |groups| - 1;
    if i < n {
      AddMember(groups[..n], i, c);
      assert after[..n] == groups[..n][i := groups[i].(members := groups[i].members + [c])];
    } else {
      assert after[..n] == groups[..n];
    }
  }

  lemma OfferPlacesOnce(lim: GroupLimits, text: CompatibilityKey -> string, groups: seq<Group>, c: Candidate)
    ensures multiset(AllMembers(Offer(lim, text, groups, c))) <= multiset(AllMembers(groups)) + multiset{c}
  {
    var i := IndexOf(groups, text, text(c.key));
    var open := if i < |groups| then groups else groups + [Group(c.key, [])];
    assert i >= |groups| ==> open[..|groups|] == groups;
    assert AllMembers(open) == AllMembers(groups);
    if i < |open| && Accepts(lim, open[i].members, c) {
      AddMember(open, i, c);
    }
  }

  /** Every candidate is placed at most once: all groups together are a part of the candidates. */
  lemma {:induction false} PackPlacesOnce(lim: GroupLimits, text: CompatibilityKey -> string, cs: seq<Candidate>)
    ensures multiset(AllMembers(Pack(lim, text, cs))) <= multiset(cs)
  {
    if cs != [] {
      var front, c := cs[..|cs| - 1], cs[|cs| - 1];
      PackPlacesOnce(lim, text, front);
      var groups := Pack(lim, text, front);
      OfferPlacesOnce(lim, text, groups, c);
      AllButLast(cs);
      StillPart(multiset(AllMembers(Offer(lim, text, groups, c))), multiset(AllMembers(groups)), multiset(cs), c);
    }
  }

  lemma StillPart(more: multiset<Candidate>, some: multiset<Candidate>, all: multiset<Candidate>, c: Candidate)
    requires more <= some + multiset{c} && c in all && some <= all - multiset{c}
    ensures more <= all
  {
  }

  function Most(lim: GroupLimits): nat {
    if lim.maxSequences < 1 then 1 else lim.maxSequences
  }

  /** One key, within the size, tenant and latency limits. */
  ghost predicate GroupOk(lim: GroupLimits, text: CompatibilityKey -> string, g: Group) {
    && (forall m | m in g.members :: text(m.key) == text(g.key))
    && |g.members| <= Most(lim)
    && (lim.maxTenantShare != 0 ==> forall t: nat :: TenantShare(g.members, t) <= lim.maxTenantShare)
    && (lim.maxLatencyClass != BULK ==> forall m | m in g.members :: m.latencyClass <= lim.maxLatencyClass)
  }

  ghost predicate GroupsOk(lim: GroupLimits, text: CompatibilityKey -> string, groups: seq<Group>) {
    && (forall g | g in groups :: GroupOk(lim, text, g))
    && (forall i, j | 0 <= i < j < |groups| :: text(groups[i].key) != text(groups[j].key))
  }

  lemma GrownGroupOk(lim: GroupLimits, text: CompatibilityKey -> string, g: Group, c: Candidate)
    requires GroupOk(lim, text, g) && Accepts(lim, g.members, c) && text(c.key) == text(g.key)
    ensures GroupOk(lim, text, g.(members := g.members + [c]))
  {
    var ms := g.members + [c];
    assert ms[..|ms| - 1] == g.members;
  }

  lemma ReplacedGroupsOk(lim: GroupLimits, text: CompatibilityKey -> string, groups: seq<Group>, i: nat, g: Group)
    requires GroupsOk(lim, text, groups) && i < |groups| && g.key == groups[i].key && GroupOk(lim, text, g)
    ensures GroupsOk(lim, text, groups[i := g])
  {
    var after := groups[i := g];
    forall x | x in after ensures GroupOk(lim, text, x) {
      assert x == g || x in groups;
    }
  }

  lemma OpenedGroupsOk(lim: GroupLimits, text: CompatibilityKey -> string, groups: seq<Group>, k: CompatibilityKey)
    requires GroupsOk(lim, text, groups) && forall j | 0 <= j < |groups| :: text(groups[j].key) != text(k)
    ensures GroupsOk(lim, text, groups + [Group(k, [])])
  {
    assert GroupOk(lim, text, Group(k, []));
  }

  lemma OfferKeepsGroups(lim: GroupLimits, text: CompatibilityKey -> string, groups: seq<Group>, c: Candidate)
    requires GroupsOk(lim, text, groups)
    ensures GroupsOk(lim, text, Offer(lim, text, groups, c))
  {
    IndexOfFinds(groups, text, text(c.key));
    var i := IndexOf(groups, text, text(c.key));
    var open := if i < |groups| then groups else groups + [Group(c.key, [])];
    if i == |groups| {
      OpenedGroupsOk(lim, text, groups, c.key);
    }
    if Accepts(lim, open[i].members, c) {
      assert open[i] in open;
      GrownGroupOk(lim, text, open[i], c);
      ReplacedGroupsOk(lim, text, open, i, open[i].(members := open[i].members + [c]));
    }
  }

  lemma {:induction false} PackKeepsGroups(lim: GroupLimits, text: CompatibilityKey -> string, cs: seq<Candidate>)
    ensures GroupsOk(lim, text, Pack(lim, text, cs))
  {
    if cs != [] {
      PackKeepsGroups(lim, text, cs[..|cs| - 1]);
      OfferKeepsGroups(lim, text, Pack(lim, text, cs[..|cs| - 1]), cs[|cs| - 1]);
    }
  }

  /** Why `c` is not in the group of its key: it ranks after everyone it lost its place to, or may not run at all. */
  ghost predicate Refused(lim: GroupLimits, text: CompatibilityKey -> string, g: Group, c: Candidate) {
    && text(g.key) == text(c.key)
    && (|| (|g.members| == Most(lim) && forall m | m in g.members :: Precedes(m, c))
        || (&& lim.maxTenantShare != 0 && TenantShare(g.members, c.tenant) == lim.maxTenantShare
            && forall m | m in g.members && m.tenant == c.tenant :: Precedes(m, c))
        || (lim.maxLatencyClass != BULK && c.latencyClass > lim.maxLatencyClass))
  }

  ghost predicate Settled(lim: GroupLimits, text: CompatibilityKey -> string, g: Group, c: Candidate) {
    c in g.members || Refused(lim, text, g, c)
  }

  ghost predicate Explained(lim: GroupLimits, text: CompatibilityKey -> string, groups: seq<Group>, c: Candidate) {
    exists i | 0 <= i < |groups| :: Settled(lim, text, groups[i], c)
  }

  lemma SettledStays(lim: GroupLimits, text: CompatibilityKey -> string, g: Group, c: Candidate, d: Candidate)
    requires Settled(lim, text, g, c) && Accepts(lim, g.members, d)
    ensures Settled(lim, text, g.(members := g.members + [d]), c)
  {
    var g' := g.(members := g.members + [d]);
    assert g'.members[..|g'.members| - 1] == g.members;
  }

  lemma OfferExplains(lim: GroupLimits, text: CompatibilityKey -> string, groups: seq<Group>, c: Candidate)
    requires GroupsOk(lim, text, groups) && forall g, m | g in groups && m in g.members :: Precedes(m, c)
    ensures Explained(lim, text, Offer(lim, text, groups, c), c)
  {
    IndexOfFinds(groups, text, text(c.key));
    var i := IndexOf(groups, text, text(c.key));
    var after := Offer(lim, text, groups, c);
    assert i < |groups| ==> GroupOk(lim, text, groups[i]);
    assert Settled(lim, text, after[i], c);
  }

  lemma OfferKeepsExplained(lim: GroupLimits, text: CompatibilityKey -> string, groups: seq<Group>, c: Candidate,
                            d: Candidate)
    requires Explained(lim, text, groups, c)
    ensures Explained(lim, text, Offer(lim, text, groups, d), c)
  {
    IndexOfFinds(groups, text, text(d.key));
    var i := IndexOf(groups, text, text(d.key));
    var after := Offer(lim, text, groups, d);
    var k :| 0 <= k < |groups| && Settled(lim, text, groups[k], c);
    if k == i && Accepts(lim, groups[i].members, d) {
      SettledStays(lim, text, groups[k], c, d);
    }
    assert Settled(lim, text, after[k], c);
  }

  lemma {:induction false} MembersIn(groups: seq<Group>, g: Group, c: Candidate)
    requires g in groups && c in g.members
    ensures c in AllMembers(groups)
  {
    if g in groups[..|groups| - 1] {
      MembersIn(groups[..|groups| - 1], g, c);
    }
  }

  /** Members are candidates. */
  lemma PackTakesCandidates(lim: GroupLimits, text: CompatibilityKey -> string, cs: seq<Candidate>, g: Group,
                            c: Candidate)
    requires g in Pack(lim, text, cs) && c in g.members
    ensures c in cs
  {
    PackPlacesOnce(lim, text, cs);
    MembersIn(Pack(lim, text, cs), g, c);
    assert c in multiset(AllMembers(Pack(lim, text, cs)));
  }

  lemma {:induction false} PackExplains(lim: GroupLimits, text: CompatibilityKey -> string, cs: seq<Candidate>, k: nat)
    requires Sorted(cs) && k < |cs|
    ensures Explained(lim, text, Pack(lim, text, cs), cs[k])
  {
    var front, c := cs[..|cs| - 1], cs[|cs| - 1];
    var groups := Pack(lim, text, front);
    if k < |front| {
      PackExplains(lim, text, front, k);
      OfferKeepsExplained(lim, text, groups, cs[k], c);
    } else {
      PackKeepsGroups(lim, text, front);
      forall g, m | g in groups && m in g.members ensures Precedes(m, c) {
        PackTakesCandidates(lim, text, front, g, m);
      }
      OfferExplains(lim, text, groups, c);
    }
  }

  // ---------------------------------------------------------------------------
  // A whole pass

  lemma MembersAreCandidates(lim: GroupLimits, text: CompatibilityKey -> string, cs: seq<Candidate>)
    ensures forall g, c | g in FormGroups(lim, text, cs) && c in g.members :: c in cs
  {
    forall g, c | g in FormGroups(lim, text, cs) && c in g.members
      ensures c in cs
    {
      PackTakesCandidates(lim, text, Sort(cs), g, c);
      SortElements(cs, c);
    }
  }

  /**
   The groups of a pass are disjoint parts of the candidates, one per key text, each of one
   key text and within the limits; and every candidate is in a group or was refused by the
   group of its key for a reason of rank, tenant share or latency class.
   */
  lemma GroupFormation(lim: GroupLimits, text: CompatibilityKey -> string, cs: seq<Candidate>)
    requires Distinct(cs)
    ensures var groups := FormGroups(lim, text, cs);
      && multiset(AllMembers(groups)) <= multiset(cs)
      && GroupsOk(lim, text, groups)
      && (forall c | c in cs :: Explained(lim, text, groups, c))
  {
    SortKeeps(cs);
    SortSorts(cs);
    PackPlacesOnce(lim, text, Sort(cs));
    PackKeepsGroups(lim, text, Sort(cs));
    forall c | c in cs ensures Explained(lim, text, FormGroups(lim, text, cs), c) {
      SortElements(cs, c);
      var k :| 0 <= k < |Sort(cs)| && Sort(cs)[k] == c;
      PackExplains(lim, text, Sort(cs), k);
    }
  }

  /** Two candidates with one text share a group. */
  lemma PairGroup(lim: GroupLimits, text: CompatibilityKey -> string, a: Candidate, b: Candidate)
    requires lim == GroupLimits(8, 0, BULK) && Precedes(a, b) && text(a.key) == text(b.key)
    ensures FormGroups(lim, text, [a, b]) == [Group(a.key, [a, b])]
  {
    assert [a, b][..1] == [a] && [a][..0] == [];
    assert Sort([]) == [] && Sort([a]) == [a] && Sort([a, b]) == [a, b];
    assert Pack(lim, text, []) == [];
    assert Pack(lim, text, [a]) == [Group(a.key, [a])];
  }
}
