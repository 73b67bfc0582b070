/**
 One scheduling pass over the ready candidates: order them, then pack them greedily
 into groups that share a compatibility key.
 */
module Grouping {
  import opened Types

  // ---------------------------------------------------------------------------
  // Candidates and their order

  datatype Candidate = Candidate(
    sequence: nat, key: CompatibilityKey, score: real, tenant: nat, latencyClass: nat)

  /** Higher score first, then lower sequence id. */
  predicate Precedes(a: Candidate, b: Candidate) {
    a.score > b.score || (a.score == b.score && a.sequence < b.sequence)
  }

  function Insert(c: Candidate, cs: seq<Candidate>): seq<Candidate> {
    if cs != [] && Precedes(c, cs[|cs| - 1])
    then Insert(c, cs[..|cs| - 1]) + [cs[|cs| - 1]]
    else cs + [c]
  }

  function Sort(cs: seq<Candidate>): seq<Candidate> {
    if cs == [] then [] else Insert(cs[|cs| - 1], Sort(cs[..|cs| - 1]))
  }

  // ---------------------------------------------------------------------------
  // Packing

  const BULK: nat := 4

  datatype GroupLimits = GroupLimits(maxSequences: nat, maxTenantShare: nat, maxLatencyClass: nat)

  datatype Group = Group(key: CompatibilityKey, members: seq<Candidate>)

  function TenantShare(members: seq<Candidate>, tenant: nat): nat {
    if members == [] then 0 else
      TenantShare(members[..|members| - 1], tenant) + (if members[|members| - 1].tenant == tenant then 1 else 0)
  }

  /** Position of the first group whose key renders as `wanted`, or the number of groups. */
  function IndexOf(groups: seq<Group>, text: CompatibilityKey -> string, wanted: string): nat {
    if groups == [] then 0
    else if text(groups[0].key) == wanted then 0
    else 1 + IndexOf(groups[1..], text, wanted)
  }

  predicate Accepts(lim: GroupLimits, members: seq<Candidate>, c: Candidate) {
    && (members == [] || |members| < lim.maxSequences)
    && (lim.maxTenantShare == 0 || TenantShare(members, c.tenant) < lim.maxTenantShare)
    && (lim.maxLatencyClass == BULK || c.latencyClass <= lim.maxLatencyClass)
  }

  /** Offers one candidate to the group of its key, opening that group if needed. */
  function Offer(lim: GroupLimits, text: CompatibilityKey -> string, groups: seq<Group>, c: Candidate): seq<Group> {
    var i := IndexOf(groups, text, text(c.key));
    var open := if i < |groups| then groups else groups + [Group(c.key, [])];
    if i < |open| && Accepts(lim, open[i].members, c)
    then open[i := open[i].(members := open[i].members + [c])]
    else open
  }

  function Pack(lim: GroupLimits, text: CompatibilityKey -> string, cs: seq<Candidate>): seq<Group> {
    if cs == [] then [] else Offer(lim, text, Pack(lim, text, cs[..|cs| - 1]), cs[|cs| - 1])
  }

  /** `text` renders a compatibility key; the program uses `KeyText`. */
  function FormGroups(lim: GroupLimits, text: CompatibilityKey -> string, cs: seq<Candidate>): seq<Group> {
    Pack(lim, text, Sort(cs))
  }
}
