/** Group formation as the scheduler runs it: an index from key text to group, filled as candidates are offered. */
module GroupingLoop {
  import opened Types
  import opened Grouping
  import GP = GroupingProofs

  /** The index knows exactly the key texts that already have a group. */
  ghost predicate Indexes(index: map<string, nat>, groups: seq<Group>, text: CompatibilityKey -> string) {
    && (forall t | t in index :: index[t] < |groups| && index[t] == IndexOf(groups, text, t))
    && (forall i | 0 <= i < |groups| :: text(groups[i].key) in index)
  }

  lemma {:induction false} IndexOfSame(groups: seq<Group>, after: seq<Group>, text: CompatibilityKey -> string,
                                       t: string)
    requires |groups| == |after| && forall i | 0 <= i < |groups| :: groups[i].key == after[i].key
    ensures IndexOf(after, text, t) == IndexOf(groups, text, t)
  {
    if groups != [] {
      IndexOfSame(groups[1..], after[1..], text, t);
    }
  }

  lemma {:induction false} IndexOfOpened(groups: seq<Group>, text: CompatibilityKey -> string, g: Group, t: string)
    ensures IndexOf(groups + [g], text, t)
         == if IndexOf(groups, text, t) < |groups| then IndexOf(groups, text, t)
            else if text(g.key) == t then |groups| else |groups| + 1
  {
    if groups != [] {
      IndexOfOpened(groups[1..], text, g, t);
      assert (groups + [g])[1..] == groups[1..] + [g];
    }
  }

  lemma OpenedIndexes(index: map<string, nat>, groups: seq<Group>, text: CompatibilityKey -> string, g: Group)
    requires Indexes(index, groups, text) && text(g.key) !in index
    ensures Indexes(index[text(g.key) := |groups|], groups + [g], text)
  {
    var index', groups' := index[text(g.key) := |groups|], groups + [g];
    GP.IndexOfFinds(groups, text, text(g.key));
    forall t | t in index' ensures index'[t] < |groups'| && index'[t] == IndexOf(groups', text, t) {
      IndexOfOpened(groups, text, g, t);
    }
  }

  method TenantShareOf(members: seq<Candidate>, tenant: nat) returns (share: nat)
    ensures share == TenantShare(members, tenant)
  {
    share := 0;
    for i := 0 to |members|
      invariant share == TenantShare(members[..i], tenant)
    {
      assert members[..i + 1][..i] == members[..i];
      if members[i].tenant == tenant {
        share := share + 1;
      }
    }
    assert members[..|members|] == members;
  }

  method OfferTo(lim: GroupLimits, members: seq<Candidate>, c: Candidate) returns (accepted: bool)
    ensures accepted == Accepts(lim, members, c)
  {
    if members != [] && |members| >= lim.maxSequences {
      return false;
    }
    var share := TenantShareOf(members, c.tenant);
    if lim.maxTenantShare > 0 && share >= lim.maxTenantShare {
      return false;
    }
    if lim.maxLatencyClass != BULK && c.latencyClass > lim.maxLatencyClass {
      return false;
    }
    return true;
  }

  method Form(lim: GroupLimits, text: CompatibilityKey -> string, cs: seq<Candidate>) returns (formed: seq<Group>)
    ensures formed == FormGroups(lim, text, cs)
  {
    var cands := Sort(cs);
    var index: map<string, nat> := map[];
    formed := [];
    for k := 0 to |cands|
      invariant formed == Pack(lim, text, cands[..k])
      invariant Indexes(index, formed, text)
    {
      var c := cands[k];
      assert cands[..k + 1][..k] == cands[..k];
      GP.IndexOfFinds(formed, text, text(c.key));
      ghost var before := formed;
      if text(c.key) !in index {
        OpenedIndexes(index, formed, text, Group(c.key, []));
        index := index[text(c.key) := |formed|];
        formed := formed + [Group(c.key, [])];
      }
      var gi := index[text(c.key)];
      assert gi == IndexOf(before, text, text(c.key));
      var fits := OfferTo(lim, formed[gi].members, c);
      if fits {
        ghost var offered := formed;
        formed := formed[gi := formed[gi].(members := formed[gi].members + [c])];
        forall t ensures IndexOf(formed, text, t) == IndexOf(offered, text, t) {
          IndexOfSame(offered, formed, text, t);
        }
      }
      assert formed == Offer(lim, text, before, c);
    }
    assert cands[..|cands|] == cands;
  }
}
