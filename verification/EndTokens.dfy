/** Which token is the last one. */
module EndTokens {
  // The first payload an executor sees for a state says whether a token ends the sequence,
  // and which. A step is the last one when it makes that token or uses up the budget, and this
  // is carried from the executor through the grant and the receipt into the history.

  import opened Types
  import E = Executor
  import ER = ExecutorRuns

  /** Bit 0 of the first byte asks for an end token, and the second byte is that token. */
  predicate Asks(p: seq<byte>) {
    |p| > 0 && p[0] & 1 == 1
  }

  function Wanted(p: seq<byte>): nat {
    if |p| > 1 then p[1] as nat else 0
  }

  predicate Hits(p: seq<byte>, token: nat) {
    Asks(p) && token == Wanted(p)
  }

  // ---------------------------------------------------------------------------
  // One executor

  predicate Keeps(p: seq<byte>, st: E.SeqState) {
    st.eosEnabled == Asks(p) && st.eosTarget == Wanted(p)
  }

  lemma InitialKeeps(num: E.Numerics, m: MemberSpec)
    ensures Keeps(m.payload, E.Initial(num, m))
  {
    if |m.payload| > 0 {
      OddOrEven(m.payload[0]);
    }
  }

  lemma OddOrEven(b: byte)
    ensures b & 1 != 0 <==> b & 1 == 1
  {
  }

  lemma {:induction false} CatchUpKeeps(num: E.Numerics, st: E.SeqState, target: nat, p: seq<byte>)
    requires Keeps(p, st)
    ensures Keeps(p, E.CatchUp(num, st, target))
    decreases target - st.tokens
  {
    if st.tokens < target {
      CatchUpKeeps(num, E.Advance(num, st), target, p);
    }
  }

  lemma AdoptKeeps(num: E.Numerics, e: E.ExecutorState, m: MemberSpec, p: seq<byte>)
    requires if m.state.id in e.states then Keeps(p, e.states[m.state.id]) else p == m.payload
    ensures Keeps(p, E.Adopt(num, e, m))
  {
    InitialKeeps(num, m);
    CatchUpKeeps(num, if m.state.id in e.states then e.states[m.state.id] else E.Initial(num, m), m.generatedTokens, p);
  }

  /** The step is the last one: it makes the token asked for, or no budget is left after it. */
  predicate LastStep(p: seq<byte>, token: nat, m: MemberSpec) {
    Hits(p, token) || m.remainingBudget <= 1
  }

  lemma ReportEnds(num: E.Numerics, st: E.SeqState, m: MemberSpec, t: E.Tentative, ns: int, p: seq<byte>)
    requires Keeps(p, st)
    ensures var o := E.Report(num, st, m, t, ns).outcome;
      (o.terminal <==> LastStep(p, o.token, m)) && o.kind == if o.terminal then 1 else 0
  {
  }

  /** The payload of the first of `n` members that reaches state `sid`. */
  function FirstIn(num: E.Numerics, e: E.ExecutorState, req: ExecutionRequest, n: nat, ns: MemberSpec -> int, sid: nat)
    : Option<seq<byte>>
    requires n <= |req.members|
  {
    if n == 0 then None else
      var before := FirstIn(num, e, req, n - 1, ns, sid);
      if before.Some? then before
      else if E.PrepareUpTo(num, e, req, n - 1, ns).1.Ok? && req.members[n - 1].state.id == sid
      then Some(req.members[n - 1].payload) else None
  }

  /** The first payload a run of calls has shown the executor for state `sid`. */
  function First(num: E.Numerics, e: E.ExecutorState, calls: seq<ER.Call>, sid: nat): Option<seq<byte>> {
    if calls == [] then None else
      var front, c := calls[..|calls| - 1], calls[|calls| - 1];
      var before := First(num, e, front, sid);
      if before.Some? || !c.PrepareCall? then before
      else FirstIn(num, ER.Run(num, e, front), c.req, |c.req.members|, c.ns, sid)
  }

  function Or<T>(a: Option<T>, b: Option<T>): Option<T> {
    if a.Some? then a else b
  }

  predicate Remembers(e: E.ExecutorState, sid: nat, p: Option<seq<byte>>) {
    (sid in e.states <==> p.Some?) && (p.Some? ==> Keeps(p.value, e.states[sid]))
  }

  lemma MemberRemembers(num: E.Numerics, e: E.ExecutorState, req: ExecutionRequest, m: MemberSpec, ns: int, sid: nat,
                        p: Option<seq<byte>>)
    requires Remembers(e, sid, p)
    ensures Remembers(E.PrepareMember(num, e, req, m, ns).0, sid,
                      if p.None? && m.state.id == sid then Some(m.payload) else p)
  {
    if m.state.id == sid {
      AdoptKeeps(num, e, m, if p.Some? then p.value else m.payload);
    }
  }

  lemma NextPrepared(num: E.Numerics, e: E.ExecutorState, req: ExecutionRequest, n: nat, ns: MemberSpec -> int,
                     e1: E.ExecutorState)
    returns (e': E.ExecutorState)
    requires n < |req.members| && e1 == E.PrepareUpTo(num, e, req, n, ns).0
    ensures e' == E.PrepareUpTo(num, e, req, n + 1, ns).0
    ensures e' == if E.PrepareUpTo(num, e, req, n, ns).1.Ok?
                  then E.PrepareMember(num, e1, req, req.members[n], ns(req.members[n])).0 else e1
  {
    e' := E.PrepareUpTo(num, e, req, n + 1, ns).0;
  }

  lemma {:induction false} PrepareRemembers(num: E.Numerics, e: E.ExecutorState, req: ExecutionRequest, n: nat,
                                            ns: MemberSpec -> int, sid: nat, p: Option<seq<byte>>)
    returns (e': E.ExecutorState, q: Option<seq<byte>>)
    requires Remembers(e, sid, p) && n <= |req.members|
    ensures e' == E.PrepareUpTo(num, e, req, n, ns).0 && q == Or(p, FirstIn(num, e, req, n, ns, sid))
    ensures Remembers(e', sid, q)
  {
    e', q := e, p;
    if n > 0 {
      var k := n - 1;
      var e1;
      e1, q := PrepareRemembers(num, e, req, k, ns, sid, p);
      e' := NextPrepared(num, e, req, k, ns, e1);
      if E.PrepareUpTo(num, e, req, k, ns).1.Ok? {
        var m := req.members[k];
        MemberRemembers(num, e1, req, m, ns(m), sid, q);
        q := if q.None? && m.state.id == sid then Some(m.payload) else q;
      }
    }
  }

  lemma CommitRemembers(e: E.ExecutorState, g: CommitGrant, sid: nat, p: Option<seq<byte>>)
    requires Remembers(e, sid, p)
    ensures Remembers(E.Commit(e, g).0, sid, p)
  {
  }

  lemma {:induction false} RunRemembers(num: E.Numerics, calls: seq<ER.Call>, sid: nat)
    ensures Remembers(ER.Run(num, E.Fresh, calls), sid, First(num, E.Fresh, calls, sid))
  {
    if calls != [] {
      var front, c := calls[..|calls| - 1], calls[|calls| - 1];
      RunRemembers(num, front, sid);
      var e, p := ER.Run(num, E.Fresh, front), First(num, E.Fresh, front, sid);
      match c
      case PrepareCall(req, ns) =>
        var _, _ := PrepareRemembers(num, e, req, |req.members|, ns, sid, p);
      case CommitCall(g) => CommitRemembers(e, g, sid, p);
      case AbortCall(a) => AbortRemembers(e, a, sid, p);
    }
  }

  lemma AbortRemembers(e: E.ExecutorState, a: AbortPrepared, sid: nat, p: Option<seq<byte>>)
    requires Remembers(e, sid, p)
    ensures Remembers(E.Abort(e, a).0, sid, p)
  {
  }

  /**
   Whatever calls an executor has had: it reports a step as the last one if and only if the step
   makes the end token of the first payload it was shown for that state, or the request leaves
   no budget after it.
   */
  lemma EndsExactly(num: E.Numerics, calls: seq<ER.Call>, req: ExecutionRequest, m: MemberSpec, ns: int)
    ensures var r := E.PrepareMember(num, ER.Run(num, E.Fresh, calls), req, m, ns).1;
      r.Ok? ==>
        var p := Or(First(num, E.Fresh, calls, m.state.id), Some(m.payload)).value;
        && (r.value.outcome.terminal <==> LastStep(p, r.value.outcome.token, m))
        && r.value.outcome.kind == if r.value.outcome.terminal then 1 else 0
  {
    var e := ER.Run(num, E.Fresh, calls);
    RunRemembers(num, calls, m.state.id);
    var p := Or(First(num, E.Fresh, calls, m.state.id), Some(m.payload)).value;
    AdoptKeeps(num, e, m, p);
    var st := E.Adopt(num, e, m);
    ReportEnds(num, st, m, E.Stage(num, st, req, m, e.nextProposal + 1), ns, p);
  }
}
