/** What is true of an executor whatever calls it receives. */
module ExecutorRuns {
  // Grants and proposals promote at most once, over every sequence of prepare, commit and
  // abort calls, honest or not.

  import opened Types
  import opened Executor

  datatype Call =
    | PrepareCall(req: ExecutionRequest, ns: MemberSpec -> int)
    | CommitCall(g: CommitGrant)
    | AbortCall(a: AbortPrepared)

  function After(num: Numerics, e: ExecutorState, c: Call): ExecutorState {
    match c
    case PrepareCall(req, ns) => Prepare(num, e, req, ns).0
    case CommitCall(g) => Commit(e, g).0
    case AbortCall(a) => Abort(e, a).0
  }

  function Run(num: Numerics, e: ExecutorState, calls: seq<Call>): ExecutorState {
    if calls == [] then e else After(num, Run(num, e, calls[..|calls| - 1]), calls[|calls| - 1])
  }

  /** The grants that promoted a transition during a run, in order. */
  function Promotions(num: Numerics, e: ExecutorState, calls: seq<Call>): seq<CommitGrant> {
    if calls == [] then [] else
      var before := calls[..|calls| - 1];
      var c := calls[|calls| - 1];
      Promotions(num, e, before)
      + (if c.CommitCall? && Promotes(Run(num, e, before), c.g) then [c.g] else [])
  }

  // ---------------------------------------------------------------------------
  // What every call keeps

  predicate Staged(e: ExecutorState, sid: nat, p: nat) {
    sid in e.states && e.states[sid].tentative.Some? && e.states[sid].tentative.value.proposal == p
  }

  /** Proposals are issued once: staged ones are distinct, unconsumed and below the counter. */
  ghost predicate Sound(e: ExecutorState) {
    && (forall sid: nat, p: nat | Staged(e, sid, p) :: p <= e.nextProposal && p !in e.consumed)
    && (forall a: nat, b: nat, p: nat | Staged(e, a, p) && Staged(e, b, p) :: a == b)
    && (forall p | p in e.consumed :: p <= e.nextProposal)
    && (forall k | k in e.receipts :: e.receipts[k].grant == k)
  }

  /** Replacing one state, with its tentative kept or freshly numbered. */
  lemma RestagedSound(e: ExecutorState, e': ExecutorState, sid: nat, st: SeqState)
    requires Sound(e) && e'.states == e.states[sid := st] && e'.receipts == e.receipts && e'.consumed == e.consumed
    requires || (e'.nextProposal == e.nextProposal
      && st.tentative == if sid in e.states then e.states[sid].tentative else None)
             || (e'.nextProposal == e.nextProposal + 1 && st.tentative.Some?
               && st.tentative.value.proposal == e.nextProposal + 1)
    ensures Sound(e') && forall k: nat, p: nat | Staged(e', k, p) ::
      Staged(e, k, p) || (k == sid && p == e.nextProposal + 1)
  {
    forall k: nat, p: nat | Staged(e', k, p)
      ensures Staged(e, k, p) || (k == sid && p == e.nextProposal + 1 == e'.nextProposal)
    {
      if k != sid {
        assert e'.states[k] == e.states[k];
      }
    }
    forall a: nat, b: nat, p: nat | Staged(e', a, p) && Staged(e', b, p) ensures a == b {
      if p <= e.nextProposal {
        assert Staged(e, a, p) && Staged(e, b, p);
      }
    }
  }

  lemma PrepareMemberSound(num: Numerics, e: ExecutorState, req: ExecutionRequest, m: MemberSpec, ns: int)
    requires Sound(e)
    ensures var e' := PrepareMember(num, e, req, m, ns).0;
      && Sound(e') && e'.receipts == e.receipts && e'.consumed == e.consumed && e.nextProposal <= e'.nextProposal
      && (forall sid: nat, p: nat | Staged(e', sid, p) :: Staged(e, sid, p) || p > e.nextProposal)
  {
    var e' := PrepareMember(num, e, req, m, ns).0;
    CatchUpReaches(num, if m.state.id in e.states then e.states[m.state.id] else Initial(num, m), m.generatedTokens);
    RestagedSound(e, e', m.state.id, e'.states[m.state.id]);
  }

  lemma {:induction false} CatchUpReaches(num: Numerics, st: SeqState, target: nat)
    ensures var r := CatchUp(num, st, target);
      && r.tentative == st.tentative && r.tokens == (if st.tokens < target then target else st.tokens)
      && (st.tokens >= target ==> r == st)
    decreases target - st.tokens
  {
    if st.tokens < target {
      CatchUpReaches(num, Advance(num, st), target);
    }
  }

  lemma {:induction false} PrepareSound(num: Numerics, e: ExecutorState, req: ExecutionRequest, n: nat,
                                        ns: MemberSpec -> int)
    requires Sound(e) && n <= |req.members|
    ensures var e' := PrepareUpTo(num, e, req, n, ns).0;
      && Sound(e') && e'.receipts == e.receipts && e'.consumed == e.consumed && e.nextProposal <= e'.nextProposal
      && (forall sid: nat, p: nat | Staged(e', sid, p) :: Staged(e, sid, p) || p > e.nextProposal)
  {
    if n > 0 {
      PrepareSound(num, e, req, n - 1, ns);
      var (e1, done) := PrepareUpTo(num, e, req, n - 1, ns);
      if done.Ok? {
        PrepareMemberSound(num, e1, req, req.members[n - 1], ns(req.members[n - 1]));
      }
    }
  }

  /** One call keeps soundness, forgets no receipt, and stages only proposals never issued before. */
  lemma AfterSound(num: Numerics, e: ExecutorState, c: Call)
    requires Sound(e)
    ensures var e' := After(num, e, c);
      && Sound(e') && e.nextProposal <= e'.nextProposal
      && (forall sid: nat, p: nat | Staged(e', sid, p) :: Staged(e, sid, p) || p > e.nextProposal)
      && (forall k | k in e.receipts :: k in e'.receipts && e'.receipts[k] == e.receipts[k])
  {
    match c
    case PrepareCall(req, ns) => PrepareSound(num, e, req, |req.members|, ns);
    case CommitCall(g) =>
      var e' := Commit(e, g).0;
      assert forall sid: nat, p: nat | Staged(e', sid, p) :: Staged(e, sid, p);
      if Promotes(e, g) {
        assert Staged(e, g.auth.state, g.proposal);
      }
    case AbortCall(a) =>
      var e' := Abort(e, a).0;
      assert forall sid: nat, p: nat | Staged(e', sid, p) :: Staged(e, sid, p);
  }

  lemma {:induction false} RunSound(num: Numerics, e: ExecutorState, calls: seq<Call>)
    requires Sound(e)
    ensures Sound(Run(num, e, calls)) && e.nextProposal <= Run(num, e, calls).nextProposal
    ensures forall k | k in e.receipts ::
      k in Run(num, e, calls).receipts && Run(num, e, calls).receipts[k] == e.receipts[k]
  {
    if calls != [] {
      RunSound(num, e, calls[..|calls| - 1]);
      AfterSound(num, Run(num, e, calls[..|calls| - 1]), calls[|calls| - 1]);
    }
  }

  // ---------------------------------------------------------------------------
  // One use

  /** No grant id and no proposal occurs twice in `ps`, and the executor's tables record exactly `ps`. */
  ghost predicate Ledgered(e: ExecutorState, ps: seq<CommitGrant>) {
    && (forall i, j | 0 <= i < j < |ps| :: ps[i].grant != ps[j].grant && ps[i].proposal != ps[j].proposal)
    && (forall i | 0 <= i < |ps| ::
          ps[i].proposal in e.consumed && ps[i].grant in e.receipts && e.receipts[ps[i].grant] == ReceiptFor(ps[i]))
    && |e.receipts| == |ps| == |e.consumed|
  }

  lemma PromotionIsLedgered(e: ExecutorState, ps: seq<CommitGrant>, g: CommitGrant)
    requires Sound(e) && Ledgered(e, ps) && Promotes(e, g)
    ensures Ledgered(Commit(e, g).0, ps + [g])
  {
    assert Staged(e, g.auth.state, g.proposal);
  }

  /**
   Over any run from a fresh executor, the promoted grants are exactly the entries of
   the receipt table and their proposals exactly the consumed ones; no grant id and
   no proposal promotes twice, and each grant's receipt stays the one it earned.
   */
  lemma {:induction false} OneUse(num: Numerics, calls: seq<Call>)
    ensures Sound(Run(num, Fresh, calls))
    ensures Ledgered(Run(num, Fresh, calls), Promotions(num, Fresh, calls))
  {
    if calls != [] {
      var before, c := calls[..|calls| - 1], calls[|calls| - 1];
      OneUse(num, before);
      var e, ps := Run(num, Fresh, before), Promotions(num, Fresh, before);
      AfterSound(num, e, c);
      if c.CommitCall? && Promotes(e, c.g) {
        PromotionIsLedgered(e, ps, c.g);
      } else {
        assert Promotions(num, Fresh, calls) == ps;
        if c.PrepareCall? {
          PrepareSound(num, e, c.req, |c.req.members|, c.ns);
        }
      }
    }
  }

  /** Committing a consumed grant again returns the same receipt and changes nothing, however much later. */
  lemma ReplayReturnsSameReceipt(num: Numerics, e: ExecutorState, g: CommitGrant, calls: seq<Call>)
    requires Sound(e) && Promotes(e, g)
    ensures var e' := Run(num, Commit(e, g).0, calls);
      Commit(e', g) == (e', Ok(ReceiptFor(g)))
  {
    AfterSound(num, e, CommitCall(g));
    RunSound(num, Commit(e, g).0, calls);
  }

  /** Issued, and no longer staged anywhere: aborted, superseded or committed. */
  ghost predicate Retired(e: ExecutorState, p: nat) {
    p <= e.nextProposal && forall sid :: !Staged(e, sid, p)
  }

  /** A retired proposal never promotes again, whatever grants arrive for it. */
  lemma {:induction false} RetiredForever(num: Numerics, e: ExecutorState, p: nat, calls: seq<Call>)
    requires Sound(e) && Retired(e, p)
    ensures Retired(Run(num, e, calls), p)
    ensures forall g | g in Promotions(num, e, calls) :: g.proposal != p
  {
    if calls != [] {
      var before := calls[..|calls| - 1];
      RetiredForever(num, e, p, before);
      RunSound(num, e, before);
      var mid := Run(num, e, before);
      AfterSound(num, mid, calls[|calls| - 1]);
      var c := calls[|calls| - 1];
      if c.CommitCall? && Promotes(mid, c.g) {
        assert Staged(mid, c.g.auth.state, c.g.proposal);
      }
    }
  }

  /**
   Commit after abort changes nothing, ever; abort after commit changes nothing and
   is reported as an error, ever.
   */
  lemma AbortAndCommitExclude(num: Numerics, e: ExecutorState, a: AbortPrepared, g: CommitGrant, calls: seq<Call>)
    requires Sound(e) && Staged(e, a.auth.state, a.proposal)
    requires g.auth.state == a.auth.state && g.proposal == a.proposal
    ensures var e' := Run(num, Abort(e, a).0, calls); Commit(e', g).0 == e'
    ensures Promotes(e, g) ==>
      var e' := Run(num, Commit(e, g).0, calls); Abort(e', a) == (e', Err(ERR_ALREADY_TERMINAL))
  {
    AfterSound(num, e, AbortCall(a));
    var e1 := Abort(e, a).0;
    assert forall sid :: Staged(e1, sid, a.proposal) ==> Staged(e, sid, a.proposal);
    assert Retired(e1, a.proposal);
    RetiredForever(num, e1, a.proposal, calls);
    var e2 := Run(num, e1, calls);
    if Promotes(e2, g) {
      assert Staged(e2, g.auth.state, g.proposal);
      assert false;
    }
    if Promotes(e, g) {
      AfterSound(num, e, CommitCall(g));
      ConsumedForever(num, Commit(e, g).0, g.proposal, calls);
    }
  }

  lemma {:induction false} ConsumedForever(num: Numerics, e: ExecutorState, p: nat, calls: seq<Call>)
    requires Sound(e) && p in e.consumed
    ensures p in Run(num, e, calls).consumed
  {
    if calls != [] {
      var before := calls[..|calls| - 1];
      ConsumedForever(num, e, p, before);
      RunSound(num, e, before);
      match calls[|calls| - 1]
      case PrepareCall(req, ns) => PrepareSound(num, Run(num, e, before), req, |req.members|, ns);
      case CommitCall(g) =>
      case AbortCall(a) =>
    }
  }

  // ---------------------------------------------------------------------------
  // Where tokens come from

  function Tokens(e: ExecutorState, sid: nat): nat {
    if sid in e.states then e.states[sid].tokens else 0
  }

  /** Catch-up steps a prepare spends on one state. */
  function CatchUpSteps(num: Numerics, e: ExecutorState, req: ExecutionRequest, n: nat, ns: MemberSpec -> int,
                        sid: nat): nat
    requires n <= |req.members|
  {
    if n == 0 then 0 else
      var (e1, done) := PrepareUpTo(num, e, req, n - 1, ns);
      var m := req.members[n - 1];
      CatchUpSteps(num, e, req, n - 1, ns, sid)
      + (if done.Ok? && m.state.id == sid && Tokens(e1, sid) < m.generatedTokens
         then m.generatedTokens - Tokens(e1, sid) else 0)
  }

  function CatchUpsInRun(num: Numerics, e: ExecutorState, calls: seq<Call>, sid: nat): nat {
    if calls == [] then 0 else
      var before := calls[..|calls| - 1];
      CatchUpsInRun(num, e, before, sid)
      + match calls[|calls| - 1]
        case PrepareCall(req, ns) => CatchUpSteps(num, Run(num, e, before), req, |req.members|, ns, sid)
        case _ => 0
  }

  function PromotionsOf(ps: seq<CommitGrant>, sid: nat): nat {
    if ps == [] then 0 else
      PromotionsOf(ps[..|ps| - 1], sid) + (if ps[|ps| - 1].auth.state == sid then 1 else 0)
  }

  lemma PrepareMemberTokens(num: Numerics, e: ExecutorState, req: ExecutionRequest, m: MemberSpec, ns: int, sid: nat)
    ensures Tokens(PrepareMember(num, e, req, m, ns).0, sid)
         == Tokens(e, sid) + (if m.state.id == sid && Tokens(e, sid) < m.generatedTokens
                              then m.generatedTokens - Tokens(e, sid) else 0)
  {
    CatchUpReaches(num, if m.state.id in e.states then e.states[m.state.id] else Initial(num, m), m.generatedTokens);
  }

  lemma PrepareTokensNext(num: Numerics, e: ExecutorState, req: ExecutionRequest, n: nat, ns: MemberSpec -> int,
                          sid: nat, t: nat, c: nat) returns (t': nat, c': nat)
    requires n < |req.members|
    requires t == Tokens(PrepareUpTo(num, e, req, n, ns).0, sid) && c == CatchUpSteps(num, e, req, n, ns, sid)
    ensures t' == Tokens(PrepareUpTo(num, e, req, n + 1, ns).0, sid)
    ensures c' == CatchUpSteps(num, e, req, n + 1, ns, sid) && t' - t == c' - c
  {
    var (e1, done) := PrepareUpTo(num, e, req, n, ns);
    if done.Ok? {
      PrepareMemberTokens(num, e1, req, req.members[n], ns(req.members[n]), sid);
    }
    t', c' := Tokens(PrepareUpTo(num, e, req, n + 1, ns).0, sid), CatchUpSteps(num, e, req, n + 1, ns, sid);
  }

  lemma {:induction false} PrepareTokens(num: Numerics, e: ExecutorState, req: ExecutionRequest, n: nat,
                                         ns: MemberSpec -> int, sid: nat) returns (t: nat, c: nat)
    requires n <= |req.members|
    ensures t == Tokens(PrepareUpTo(num, e, req, n, ns).0, sid) && c == CatchUpSteps(num, e, req, n, ns, sid)
    ensures t == Tokens(e, sid) + c
  {
    if n == 0 {
      t, c := Tokens(e, sid), 0;
    } else {
      var k := n - 1;
      t, c := PrepareTokens(num, e, req, k, ns, sid);
      t, c := PrepareTokensNext(num, e, req, k, ns, sid, t, c);
    }
  }

  lemma CommitTokens(e: ExecutorState, g: CommitGrant, sid: nat)
    ensures Tokens(Commit(e, g).0, sid)
         == Tokens(e, sid) + (if Promotes(e, g) && g.auth.state == sid then 1 else 0)
  {
  }

  /** Committed tokens are exactly the catch-up steps plus the promotions of that state. */
  lemma {:induction false} TokensAccounted(num: Numerics, e: ExecutorState, calls: seq<Call>, sid: nat)
    ensures Tokens(Run(num, e, calls), sid)
         == Tokens(e, sid) + CatchUpsInRun(num, e, calls, sid) + PromotionsOf(Promotions(num, e, calls), sid)
  {
    if calls != [] {
      var before, c := calls[..|calls| - 1], calls[|calls| - 1];
      TokensAccounted(num, e, before, sid);
      var mid, ps, ps' := Run(num, e, before), Promotions(num, e, before), Promotions(num, e, calls);
      if c.CommitCall? && Promotes(mid, c.g) {
        CommitTokens(mid, c.g, sid);
        assert ps' == ps + [c.g] && ps'[..|ps' | - 1] == ps;
      } else {
        assert ps' == ps;
        match c
        case PrepareCall(req, ns) => var _, _ := PrepareTokens(num, mid, req, |req.members|, ns, sid);
        case CommitCall(g) =>
        case AbortCall(a) =>
      }
    }
  }
}
