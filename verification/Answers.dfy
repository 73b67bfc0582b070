/** What each operation of the coordinator answers, in terms of the fields it looks at. */
module Answers {
  // The other modules speak of operations through the predicates that define them. Here the
  // conditions are written out, so that a coordinator that looked at other fields, or looked
  // at them the other way round, would break a law.

  import opened Types
  import opened Lifecycle
  import opened Fabric
  import opened FabricInvariants
  import G = Grouping
  import M = Memory
  import PS = PumpSchedule

  // ---------------------------------------------------------------------------
  // Authorisation

  /** The epoch, the boot, the attempt, the generation and the dispatch are those of this moment. */
  predicate Authentic(f: FabricState, a: Authority) {
    && a.sequence in f.seqs && a.epoch == f.epoch
    && (a.worker in f.boots ==> a.workerBoot == f.boots[a.worker])
    && a.attempt == f.seqs[a.sequence].attempt
    && a.generation == f.seqs[a.sequence].flight.generation
    && a.dispatch == f.seqs[a.sequence].flight.dispatch
  }

  predicate Ended(s: SequenceState) {
    s in {Completed, Cancelled, CancelRequested, DeadlineExpired, NonRetryableFailure, StaleSuperseded}
  }

  /** A successful step that starts where the sequence stands, and is not the one accepted last. */
  predicate NextStep(cfg: Config, s: Sequence, pm: PreparedMember) {
    && pm.outcome.kind in {0, 1}
    && pm.before == s.tally.generated && (s.tally.digestEstablished ==> pm.pre == s.tally.digest)
    && s.pending == None
    && (s.tally.accepted.Some? ==> s.tally.accepted.value.key != cfg.acceptKey(pm.auth, pm.before))
  }

  /** A prepared result is granted if and only if its authority is authentic, its sequence goes on and it is next. */
  lemma GrantedExactly(cfg: Config, f: FabricState, pd: PreparedDecode, pm: PreparedMember)
    ensures AuthoriseMember(cfg, f, pd, pm).1.SendGrant? <==>
      Authentic(f, pm.auth) && !Ended(f.seqs[pm.auth.sequence].state) && NextStep(cfg, f.seqs[pm.auth.sequence], pm)
  {
  }

  /** The grant carries what was reported, under the group's own epoch, worker and boot. */
  lemma GrantTells(cfg: Config, f: FabricState, pd: PreparedDecode, pm: PreparedMember)
    requires AuthoriseMember(cfg, f, pd, pm).1.SendGrant?
    ensures var (f', r) := AuthoriseMember(cfg, f, pd, pm); var g := r.grant;
      && g.grant == f.next.grant && f'.next.grant == f.next.grant + 1
      && g.proposal == pm.proposal && g.position == pm.before && g.pre == pm.pre && g.post == pm.post
      && g.delta == pm.delta && g.kind == pm.outcome.kind && g.terminal == pm.outcome.terminal
      && g.token == pm.outcome.token % TWO32 && g.activeNs == pm.activeNs
      && g.auth.epoch == pd.epoch && g.auth.worker == pd.worker && g.auth.workerBoot == pd.workerBoot
      && g.auth.sequence == pm.auth.sequence && g.auth.state == pm.auth.state && g.auth.attempt == pm.auth.attempt
      && g.auth.generation == pm.auth.generation && g.auth.dispatch == pm.auth.dispatch
      && g.grant in f'.ledger && f'.ledger[g.grant] == GrantRecord(g, GRANT_PENDING, None)
      && f'.seqs[pm.auth.sequence].pending == Some(Pending(g.grant, pm.proposal))
  {
  }

  /** Nothing is out and nothing is reserved for the sequence any more. */
  predicate Grounded(f: FabricState, f': FabricState, id: nat) {
    && id in f.seqs && id in f'.seqs
    && !f'.seqs[id].flight.active && f'.seqs[id].reservation == NULL
    && (f.seqs[id].reservation != NULL ==> f.seqs[id].reservation !in f'.memory.reservations)
  }

  /** A result that is refused is sent back to be aborted, and its sequence may be dispatched again. */
  lemma RefusedExactly(cfg: Config, f: FabricState, pd: PreparedDecode, pm: PreparedMember)
    requires !AuthoriseMember(cfg, f, pd, pm).1.SendGrant?
    ensures var (f', r) := AuthoriseMember(cfg, f, pd, pm); var id := pm.auth.sequence;
      && r.abort == AbortPrepared(pm.proposal, pm.auth)
      && (r.rejected <==> !Authentic(f, pm.auth) || Ended(f.seqs[id].state) || pm.outcome.kind in {0, 1})
      && (id !in f.seqs ==> f' == f)
      && (id in f.seqs && r.rejected ==>
            && Grounded(f, f', id) && f'.seqs[id].pending == None && f'.seqs[id].flight.dispatch == NULL
            && f'.seqs[id].tally == f.seqs[id].tally && f'.seqs[id].attempt == f.seqs[id].attempt
            && f'.seqs[id].state == if f.seqs[id].state in {Dispatched, Running} then ReadyForNextToken
                                    else f.seqs[id].state)
  {
  }

  /** Every member is answered, in order and in the state the members before it left. */
  lemma {:induction false} EachAnswered(cfg: Config, f: FabricState, pd: PreparedDecode, n: nat, i: nat)
    returns (before: FabricState)
    requires i < n <= |pd.members|
    ensures before == Authorise(cfg, f, pd, i).0
    ensures var out := Authorise(cfg, f, pd, n).1;
      |out| == n && out[i] == AuthoriseMember(cfg, before, pd, pd.members[i]).1
    ensures Authorise(cfg, f, pd, i + 1).0 == AuthoriseMember(cfg, before, pd, pd.members[i]).0
  {
    AnswerPerMember(cfg, f, pd, n - 1);
    if i < n - 1 {
      before := EachAnswered(cfg, f, pd, n - 1, i);
    } else {
      before := Authorise(cfg, f, pd, i).0;
    }
  }

  lemma {:induction false} AnswerPerMember(cfg: Config, f: FabricState, pd: PreparedDecode, n: nat)
    requires n <= |pd.members|
    ensures |Authorise(cfg, f, pd, n).1| == n
  {
    if n > 0 {
      AnswerPerMember(cfg, f, pd, n - 1);
    }
  }

  // ---------------------------------------------------------------------------
  // Receipts

  /** A receipt finalises if and only if it answers, field by field, the grant its sequence waits on. */
  lemma FinalisedExactly(f: FabricState, rec: MemberReceipt)
    ensures Finalises(f, rec) <==>
      && rec.grant in f.ledger && f.ledger[rec.grant].status !in {GRANT_CONSUMED, GRANT_ABORTED}
      && var g := f.ledger[rec.grant].grant;
      && rec.grant == g.grant && rec.proposal == g.proposal && rec.before == g.position
      && rec.pre == g.pre && rec.post == g.post && rec.auth.epoch == g.auth.epoch
      && rec.auth.workerBoot == g.auth.workerBoot && rec.auth.sequence == g.auth.sequence
      && rec.auth.state == g.auth.state && rec.auth.attempt == g.auth.attempt
      && rec.auth.generation == g.auth.generation && rec.auth.dispatch == g.auth.dispatch
      && rec.auth.sequence in f.seqs && !Ended(f.seqs[rec.auth.sequence].state)
      && f.seqs[rec.auth.sequence].pending == Some(Pending(rec.grant, rec.proposal))
  {
  }

  /** The receipt is the last one of its sequence: it says so, or no token is left after it. */
  predicate Last(s: Sequence, rec: MemberReceipt) {
    rec.terminal || s.tally.generated + 1 >= s.req.maxGeneration
  }

  /** A finalised receipt is recorded as the end if and only if it is the last one. */
  lemma EndsExactly(cfg: Config, f: FabricState, rec: MemberReceipt)
    requires Inv(cfg, f) && Finalises(f, rec)
    ensures var id, f' := rec.auth.sequence, Finalise(cfg, f, rec); var s := f.seqs[id];
      && (id in f'.terminal && f'.terminal[id] == Completed <==>
            Last(s, rec) || (id in f.terminal && f.terminal[id] == Completed))
      && (s.state in {Dispatched, Running, StepCompleted} ==>
            f'.seqs[id].state == if Last(s, rec) then Completed else ReadyForNextToken)
  {
    LockstepOf(cfg, f, rec.auth.sequence);
  }

  /** Its grant is spent, its answer is kept, and the sequence is out on nothing. */
  lemma ReceiptSpends(cfg: Config, f: FabricState, rec: MemberReceipt)
    requires Finalises(f, rec)
    ensures var id, f' := rec.auth.sequence, Finalise(cfg, f, rec);
      && Grounded(f, f', id) && f'.seqs[id].pending == None && f'.seqs[id].flight.dispatch == NULL
      && f'.ledger[rec.grant] == GrantRecord(f.ledger[rec.grant].grant, GRANT_CONSUMED, Some(rec))
      && f'.seqs[id].tally.accepted.Some?
      && var a := f'.seqs[id].tally.accepted.value;
      && a.auth == rec.auth && a.before == rec.before && a.after == rec.after && a.pre == rec.pre && a.post == rec.post
      && a.delta == rec.delta && a.terminal == rec.terminal && a.key == cfg.acceptKey(rec.auth, rec.before)
      && a.promotionObserved
  {
  }

  /** A batch of receipts is applied as its parts are, one after the other. */
  lemma {:induction false} ReceiptsCompose(cfg: Config, f: FabricState, a: seq<MemberReceipt>, b: seq<MemberReceipt>)
    ensures var (f1, done) := Receive(cfg, f, a); var (f2, more) := Receive(cfg, f1, b);
      Receive(cfg, f, a + b) == (f2, done + more)
  {
    var (f1, done) := Receive(cfg, f, a);
    if b == [] {
      assert a + b == a && done + [] == done;
    } else {
      var front, rec := b[..|b| - 1], b[|b| - 1];
      ReceiptsCompose(cfg, f, a, front);
      assert (a + b)[..|a + b| - 1] == a + front && (a + b)[|a + b| - 1] == rec;
      var more := Receive(cfg, f1, front).1;
      assert (done + more) + [rec] == done + (more + [rec]);
    }
  }

  lemma ReceivedAlone(cfg: Config, f: FabricState, rec: MemberReceipt)
    ensures Receive(cfg, f, [rec]) == if Finalises(f, rec) then (Finalise(cfg, f, rec), [rec]) else (f, [])
  {
    assert [rec][..0] == [] && [] + [rec] == [rec] && Receive(cfg, f, []) == (f, []);
  }

  // ---------------------------------------------------------------------------
  // Aborts

  predicate Names(f: FabricState, a: AbortPrepared) {
    && a.auth.sequence in f.seqs && f.seqs[a.auth.sequence].pending.Some?
    && f.seqs[a.auth.sequence].pending.value.proposal == a.proposal
  }

  /** An abort that names the pending proposal withdraws its grant; any other abort does nothing. */
  lemma AbortExactly(cfg: Config, f: FabricState, a: AbortPrepared)
    requires Inv(cfg, f)
    ensures !Names(f, a) ==> AbortPending(f, a) == f
    ensures Names(f, a) ==>
      var id, f' := a.auth.sequence, AbortPending(f, a);
      var g := f.seqs[id].pending.value.grant;
      && Grounded(f, f', id) && f'.seqs[id].pending == None && g in f.ledger
      && f'.ledger == f.ledger[g := f.ledger[g].(status := GRANT_ABORTED)]
      && f'.seqs[id].state == if f.seqs[id].state in {Dispatched, Running} then Waiting else f.seqs[id].state
  {
    if Names(f, a) {
      assert SeqOk(cfg, f, a.auth.sequence, f.seqs[a.auth.sequence]);
    }
  }

  /** After that no receipt for the withdrawn grant finalises. */
  lemma AbortedRefused(cfg: Config, f: FabricState, a: AbortPrepared, rec: MemberReceipt)
    requires Inv(cfg, f) && Names(f, a) && rec.grant == f.seqs[a.auth.sequence].pending.value.grant
    ensures !Finalises(AbortPending(f, a), rec)
  {
    assert SeqOk(cfg, f, a.auth.sequence, f.seqs[a.auth.sequence]);
  }

  // ---------------------------------------------------------------------------
  // Retries

  predicate Failing(s: SequenceState) {
    s.RetryableFailure? || s.Running? || s.Dispatched?
  }

  /** A new attempt: its id comes from the dispatch counter, and everything committed stays. */
  predicate NewAttempt(f: FabricState, s: Sequence, t: Sequence) {
    && t.attempt == f.next.dispatch + 1000000 && t.attemptCount == s.attemptCount + 1 && t.state == Ready
    && t.tally == s.tally && t.flight == s.flight && t.pending == s.pending && t.reservation == s.reservation
  }

  lemma RetryIs(cfg: Config, f: FabricState, id: nat)
    requires id in f.seqs && Lockstep(cfg, f.seqs[id]) && Failing(f.seqs[id].state)
    ensures Retry(cfg, f, id) == TryAgain(cfg, f, id, id)
  {
    var s := f.seqs[id];
    assert s.(tally := s.tally.(generated := s.tally.committed)) == s;
    assert Put(f, id, s) == f;
  }

  lemma TryRenews(cfg: Config, f: FabricState, id: nat)
    requires id in f.seqs && Failing(f.seqs[id].state) && f.seqs[id].attemptCount < cfg.maxAttempts
    ensures var f' := TryAgain(cfg, f, id, id);
      id in f'.seqs && NewAttempt(f, f.seqs[id], f'.seqs[id]) && f' == f.(seqs := f.seqs[id := f'.seqs[id]])
  {
  }

  lemma TryGivesUp(cfg: Config, f: FabricState, id: nat)
    requires id in f.seqs && Failing(f.seqs[id].state) && f.seqs[id].attemptCount >= cfg.maxAttempts
    ensures var f', s := TryAgain(cfg, f, id, id), f.seqs[id];
      && f'.terminal == f.terminal[id := NonRetryableFailure]
      && f'.seqs == f.seqs[id := s.(state := if s.state.RetryableFailure? then s.state else NonRetryableFailure)]
  {
  }

  /** A failing sequence with attempts left gets a new one. */
  lemma RetryRenews(cfg: Config, f: FabricState, id: nat)
    requires Inv(cfg, f) && id in f.seqs && Failing(f.seqs[id].state) && f.seqs[id].attemptCount < cfg.maxAttempts
    ensures var f' := Retry(cfg, f, id);
      id in f'.seqs && NewAttempt(f, f.seqs[id], f'.seqs[id]) && f' == f.(seqs := f.seqs[id := f'.seqs[id]])
  {
    LockstepOf(cfg, f, id);
    RetryIs(cfg, f, id);
    TryRenews(cfg, f, id);
  }

  /** One without is recorded as failed. */
  lemma RetryGivesUp(cfg: Config, f: FabricState, id: nat)
    requires Inv(cfg, f) && id in f.seqs && Failing(f.seqs[id].state) && f.seqs[id].attemptCount >= cfg.maxAttempts
    ensures var f', s := Retry(cfg, f, id), f.seqs[id];
      && f'.terminal == f.terminal[id := NonRetryableFailure]
      && f'.seqs == f.seqs[id := s.(state := if s.state.RetryableFailure? then s.state else NonRetryableFailure)]
  {
    LockstepOf(cfg, f, id);
    RetryIs(cfg, f, id);
    TryGivesUp(cfg, f, id);
  }

  /** Any other sequence is left alone. */
  lemma RetryIgnored(cfg: Config, f: FabricState, id: nat)
    requires id !in f.seqs || !Failing(f.seqs[id].state)
    ensures Retry(cfg, f, id) == f
  {
  }

  // ---------------------------------------------------------------------------
  // Cancellation and worker loss

  /**
   A cancellation asks for the end of what is out, ends what is not, and leaves alone what has
   ended or was asked already. The record is written even where the state cannot follow.
   */
  lemma CancelExactly(f: FabricState, id: nat)
    ensures id !in f.seqs || Ended(f.seqs[id].state) ==> Cancel(f, id) == f
    ensures id in f.seqs && !Ended(f.seqs[id].state) ==>
      var f', s := Cancel(f, id), f.seqs[id];
      if s.state in {Grouped, Reserved, Dispatched, Running} then
        f' == f.(seqs := f.seqs[id := s.(state := if s.state.Dispatched? then CancelRequested else s.state)])
      else
        && (s.reservation != NULL ==> s.reservation !in f'.memory.reservations)
        && f'.terminal == f.terminal[id := Cancelled]
        && f'.seqs == f.seqs[id := s.(state := f'.seqs[id].state, reservation := NULL)]
        && f'.seqs[id].state == if s.state.RetryableFailure? || s.state.Unnamed? then s.state else Cancelled
  {
  }

  /** A registered worker is known as it says, under its boot, with the largest size its device was ever given. */
  lemma RegisteredExactly(cfg: Config, f: FabricState, w: Worker)
    ensures w.id == NULL || w.boot == NULL ==> Register(cfg, f, w) == f
    ensures w.id != NULL && w.boot != NULL ==>
      var f' := Register(cfg, f, w);
      && f'.workers == f.workers[w.id := w] && f'.boots == f.boots[w.id := w.boot]
      && f'.seqs == f.seqs && f'.ledger == f.ledger && f'.terminal == f.terminal
      && f'.memory.reservations == f.memory.reservations && w.device.id in f'.memory.devices
      && var d, d' := M.Device(f.memory, w.device.id), f'.memory.devices[w.device.id];
      && d'.reserved == d.reserved && d'.headroomFloor == cfg.headroomFloor
      && d'.capacity >= d.capacity && d'.capacity >= w.device.memoryBytes
      && (d'.capacity == d.capacity || d'.capacity == w.device.memoryBytes)
  {
  }

  /** Work that was out on `worker` is back in the queue; a grant it may have stays. Nothing else has changed. */
  predicate Requeued(worker: nat, f: FabricState, f': FabricState, id: nat) {
    && id in f.seqs && id in f'.seqs
    && var s, t := f.seqs[id], f'.seqs[id];
    if s.flight.active && s.flight.worker == worker then
      && Grounded(f, f', id)
      && t == s.(state := if s.state in {Dispatched, Running} then Waiting else s.state,
                 flight := s.flight.(active := false), reservation := NULL)
    else t == s
  }

  lemma OrphanRequeues(f: FabricState, worker: nat, id: nat, k: nat)
    requires k in f.seqs
    ensures var f' := Orphan(f, worker, id);
      && k in f'.seqs && (if k == id then Requeued(worker, f, f', id) else f'.seqs[k] == f.seqs[k])
      && (forall r | r in f'.memory.reservations :: r in f.memory.reservations)
  {
  }

  lemma {:induction false} OrphansRequeued(f: FabricState, worker: nat, order: seq<nat>, id: nat)
    requires id in f.seqs
    ensures var f' := OrphanAll(f, worker, order);
      && id in f'.seqs && (if id in order then Requeued(worker, f, f', id) else f'.seqs[id] == f.seqs[id])
      && (forall r | r in f'.memory.reservations :: r in f.memory.reservations) && f'.workers == f.workers
  {
    if order != [] {
      var front, k := order[..|order| - 1], order[|order| - 1];
      assert order == front + [k];
      OrphansRequeued(f, worker, front, id);
      OrphanRequeues(OrphanAll(f, worker, front), worker, k, id);
    }
  }

  /** A worker that is marked dead takes no work, and exactly what was out on it is put back. */
  lemma DeadExactly(f: FabricState, worker: nat, order: seq<nat>, id: nat)
    requires id in f.seqs && id in order
    ensures var f' := MarkWorkerDead(f, worker, order);
      && Requeued(worker, f, f', id)
      && f'.workers == if worker !in f.workers then f.workers
                       else f.workers[worker := f.workers[worker].(health := 3, active := 0)]
  {
    var f1 := if worker in f.workers
              then f.(workers := f.workers[worker := f.workers[worker].(health := FAILED, active := 0)]) else f;
    OrphansRequeued(f1, worker, order, id);
  }

  // ---------------------------------------------------------------------------
  // The clock

  predicate Overdue(now: int, s: Sequence) {
    s.req.deadline != 0 && s.req.deadline <= now
  }

  /** The states the transition table lets expire. */
  predicate CanExpire(s: SequenceState) {
    s.CancelRequested? || (!Ended(s) && !s.RetryableFailure? && !s.Unnamed?)
  }

  /** What a boundary at `now` makes of a sequence, and of its record. */
  function Passed(now: int, s: Sequence): SequenceState {
    if Overdue(now, s) then if CanExpire(s.state) then DeadlineExpired else s.state
    else if s.state.CancelRequested? then Cancelled
    else s.state
  }

  predicate PassedAs(now: int, f: FabricState, f': FabricState, id: nat) {
    && id in f.seqs && id in f'.seqs && f'.seqs[id].state == Passed(now, f.seqs[id])
    && f'.seqs[id].tally == f.seqs[id].tally && f'.seqs[id].req == f.seqs[id].req
    && (Terminal(f.seqs[id].state) || !(Overdue(now, f.seqs[id]) || f.seqs[id].state.CancelRequested?) ==>
          f'.seqs[id] == f.seqs[id] && (id in f'.terminal <==> id in f.terminal)
          && (id in f.terminal ==> f'.terminal[id] == f.terminal[id]))
    && (!Terminal(f.seqs[id].state) && Overdue(now, f.seqs[id]) ==>
          id in f'.terminal && f'.terminal[id] == DeadlineExpired)
    && (f.seqs[id].state.CancelRequested? && !Overdue(now, f.seqs[id]) ==>
          id in f'.terminal && f'.terminal[id] == Cancelled)
  }

  lemma SettlePasses(f: FabricState, now: int, id: nat)
    requires id in f.seqs
    ensures PassedAs(now, f, Settle(f, now, id), id)
  {
  }

  lemma SettleOther(f: FabricState, now: int, id: nat, k: nat)
    requires k in f.seqs && k != id
    ensures var f' := Settle(f, now, id);
      && k in f'.seqs && f'.seqs[k] == f.seqs[k] && (k in f'.terminal <==> k in f.terminal)
      && (k in f.terminal ==> f'.terminal[k] == f.terminal[k])
  {
  }

  predicate Same(f: FabricState, f': FabricState, id: nat) {
    && id in f.seqs && id in f'.seqs && f'.seqs[id] == f.seqs[id] && (id in f'.terminal <==> id in f.terminal)
    && (id in f.terminal ==> f'.terminal[id] == f.terminal[id])
  }

  lemma PassedAgain(now: int, f: FabricState, f1: FabricState, f2: FabricState, id: nat)
    requires PassedAs(now, f, f1, id) && PassedAs(now, f1, f2, id)
    ensures PassedAs(now, f, f2, id)
  {
  }

  /** A pass expires exactly what is overdue, cancels exactly what asked for it, and leaves the rest alone. */
  lemma {:induction false} AdvanceExactly(f: FabricState, now: int, order: seq<nat>, id: nat)
    requires id in f.seqs
    ensures var f' := Advance(f, now, order); if id in order then PassedAs(now, f, f', id) else Same(f, f', id)
  {
    if order != [] {
      var front, k := order[..|order| - 1], order[|order| - 1];
      assert order == front + [k];
      AdvanceExactly(f, now, front, id);
      var f1 := Advance(f, now, front);
      if k == id {
        SettlePasses(f1, now, id);
        if id in front {
          PassedAgain(now, f, f1, Settle(f1, now, id), id);
        }
      } else {
        SettleOther(f1, now, k, id);
      }
    }
  }

  // ---------------------------------------------------------------------------
  // Bare completions

  /** A completion that speaks for the dispatch the sequence is out on. */
  predicate Speaks(f: FabricState, r: ExecutionResult, mo: MemberOutcome) {
    && mo.sequence in f.seqs && r.epoch == f.epoch && (r.worker in f.boots ==> f.boots[r.worker] == r.workerBoot)
    && mo.attempt == f.seqs[mo.sequence].attempt && mo.generation == f.seqs[mo.sequence].flight.generation
    && r.dispatch == f.seqs[mo.sequence].flight.dispatch && !Ended(f.seqs[mo.sequence].state)
  }

  /** The state a failed step leads to. */
  function Failed(cfg: Config, s: Sequence): SequenceState {
    if s.attemptCount < cfg.maxAttempts then
      if s.state in {Admitted, ReadyForNextToken} || s.state.Unnamed? then s.state else Ready
    else if s.state.Dispatched? then RetryableFailure
    else if s.state in {Running, StepCompleted} then NonRetryableFailure
    else s.state
  }

  /** The state an outcome of each kind leads to. */
  function Led(cfg: Config, s: Sequence, kind: nat): SequenceState {
    if kind == 2 then
      if s.state in {Dispatched, Running} then StepCompleted
      else if s.state in {Ready, ReadyForNextToken} then Yielded else s.state
    else if kind == 3 then Failed(cfg, s)
    else if kind == 4 then if s.state.Dispatched? then NonRetryableFailure else s.state
    else if kind !in {5, 6} || s.state.RetryableFailure? || s.state.Unnamed? then s.state
    else if kind == 5 then Cancelled else DeadlineExpired
  }

  /** The end it is recorded with. */
  function Ending(cfg: Config, s: Sequence, kind: nat): Option<SequenceState> {
    if kind == 4 || (kind == 3 && s.attemptCount >= cfg.maxAttempts) then Some(NonRetryableFailure)
    else if kind == 5 then Some(Cancelled)
    else if kind == 6 then Some(DeadlineExpired)
    else None
  }

  /** A completion that does not speak for the dispatch ends nothing and renews nothing; neither does a success. */
  lemma CompletionIgnored(cfg: Config, f: FabricState, r: ExecutionResult, mo: MemberOutcome)
    ensures var f', id := CompleteMember(cfg, f, r, mo), mo.sequence;
      && (id !in f.seqs || (Speaks(f, r, mo) && mo.kind in {0, 1, 7}) ==> f' == f)
      && (!Speaks(f, r, mo) ==> f'.terminal == f.terminal && f'.ledger == f.ledger && f'.seqs.Keys == f.seqs.Keys)
      && (id in f.seqs && !Speaks(f, r, mo) ==>
            && f'.seqs[id].state == f.seqs[id].state && f'.seqs[id].attempt == f.seqs[id].attempt
            && f'.seqs[id].tally == f.seqs[id].tally && f'.seqs[id].pending == f.seqs[id].pending
            && f'.seqs[id].flight.dispatch == f.seqs[id].flight.dispatch)
      && (id in f.seqs && r.epoch != f.epoch ==> Grounded(f, f', id))
      && (id in f.seqs && r.epoch == f.epoch && !Speaks(f, r, mo) && !f.seqs[id].state.CancelRequested? ==> f' == f)
  {
  }

  /** A completion for a sequence that is to be cancelled takes it off the worker, if it is the one it is out on. */
  lemma CompletionCancelled(cfg: Config, f: FabricState, r: ExecutionResult, mo: MemberOutcome)
    requires mo.sequence in f.seqs && f.seqs[mo.sequence].state.CancelRequested? && r.epoch == f.epoch
    ensures var f', id := CompleteMember(cfg, f, r, mo), mo.sequence; var s := f.seqs[id];
      if && (r.worker in f.boots ==> f.boots[r.worker] == r.workerBoot) && mo.attempt == s.attempt
         && mo.generation == s.flight.generation && r.dispatch == s.flight.dispatch
      then Grounded(f, f', id) else f' == f
  {
  }

  /** `t` is what the outcome makes of `s`. */
  predicate Outcome(cfg: Config, f: FabricState, s: Sequence, t: Sequence, kind: nat) {
    && t.state == Led(cfg, s, kind) && t.flight.dispatch == NULL && !t.flight.active && t.reservation == NULL
    && t.attempt == (if kind == 3 && s.attemptCount < cfg.maxAttempts then f.next.dispatch + 1000000 else s.attempt)
    && t.attemptCount == (if kind == 3 && s.attemptCount < cfg.maxAttempts then s.attemptCount + 1 else s.attemptCount)
  }

  lemma LandedIs(f: FabricState, id: nat) returns (f1: FabricState)
    requires id in f.seqs
    ensures f1 == Landed(f, id) && id in f1.seqs && f1.next == f.next && f1.terminal == f.terminal
    ensures var s := f.seqs[id];
      f1.seqs[id] == s.(flight := s.flight.(active := false, dispatch := NULL), reservation := NULL)
    ensures f.seqs[id].reservation != NULL ==> f.seqs[id].reservation !in f1.memory.reservations
  {
    f1 := Landed(f, id);
  }

  lemma OutcomeLeads(cfg: Config, f: FabricState, id: nat, mo: MemberOutcome)
    requires id in f.seqs && mo.sequence == id && !Ended(f.seqs[id].state) && mo.kind !in {0, 1}
    requires f.seqs[id].flight.dispatch == NULL && !f.seqs[id].flight.active && f.seqs[id].reservation == NULL
    ensures var f' := ApplyOutcome(cfg, f, id, mo);
      && id in f'.seqs && Outcome(cfg, f, f.seqs[id], f'.seqs[id], mo.kind) && f'.memory == f.memory
      && f'.terminal == match Ending(cfg, f.seqs[id], mo.kind)
                        case None => f.terminal
                        case Some(end) => f.terminal[id := end]
  {
    if mo.kind == RETRYABLE_FAILURE {
      RetryableLeads(cfg, f, id);
    } else {
      OtherLeads(cfg, f, id, mo);
    }
  }

  lemma OtherLeads(cfg: Config, f: FabricState, id: nat, mo: MemberOutcome)
    requires id in f.seqs && mo.sequence == id && !Ended(f.seqs[id].state) && mo.kind !in {0, 1, 3}
    requires f.seqs[id].flight.dispatch == NULL && !f.seqs[id].flight.active && f.seqs[id].reservation == NULL
    ensures var f' := ApplyOutcome(cfg, f, id, mo);
      && id in f'.seqs && Outcome(cfg, f, f.seqs[id], f'.seqs[id], mo.kind) && f'.memory == f.memory
      && f'.terminal == match Ending(cfg, f.seqs[id], mo.kind)
                        case None => f.terminal
                        case Some(end) => f.terminal[id := end]
  {
    OtherMoves(cfg, f.seqs[id], mo.kind);
  }

  lemma OtherMoves(cfg: Config, s: Sequence, kind: nat)
    requires !Ended(s.state) && kind != 3
    ensures Led(cfg, s, kind) == if kind == 2 then MoveThrough(s.state, StepCompleted, Yielded)
                                 else if kind == 4 && s.state.Dispatched? then Move(s.state, NonRetryableFailure)
                                 else if kind == 5 then Move(s.state, Cancelled)
                                 else if kind == 6 then Move(s.state, DeadlineExpired)
                                 else s.state
  {
  }

  lemma RetryableLeads(cfg: Config, f: FabricState, id: nat)
    requires id in f.seqs && !Ended(f.seqs[id].state) && f.seqs[id].reservation == NULL
    requires f.seqs[id].flight.dispatch == NULL && !f.seqs[id].flight.active
    ensures var f' := RetryableOutcome(cfg, f, id, id);
      && id in f'.seqs && Outcome(cfg, f, f.seqs[id], f'.seqs[id], RETRYABLE_FAILURE) && f'.memory == f.memory
      && f'.terminal == if f.seqs[id].attemptCount < cfg.maxAttempts then f.terminal
                        else f.terminal[id := NonRetryableFailure]
  {
    var s := FailedStep(cfg, f.seqs[id]);
    assert PutReleased(f, id, f.seqs[id]) == f;
    assert RetryableOutcome(cfg, f, id, id) == TryAgain(cfg, Put(f, id, s), id, id);
    FailedMoves(cfg, f.seqs[id]);
  }

  lemma FailedMoves(cfg: Config, s: Sequence)
    requires !Ended(s.state)
    ensures var from := FailedStep(cfg, s).state;
      Failed(cfg, s) == if s.attemptCount < cfg.maxAttempts then MoveThrough(from, Retrying, Ready)
                        else Move(from, NonRetryableFailure)
  {
  }

  /** One that does leads the sequence where its kind says, and leaves it out on nothing. */
  lemma CompletionLeads(cfg: Config, f: FabricState, r: ExecutionResult, mo: MemberOutcome)
    requires Speaks(f, r, mo) && mo.kind !in {0, 1, 7}
    ensures var f', id := CompleteMember(cfg, f, r, mo), mo.sequence;
      && Grounded(f, f', id) && Outcome(cfg, f, f.seqs[id], f'.seqs[id], mo.kind)
      && f'.terminal == match Ending(cfg, f.seqs[id], mo.kind)
                        case None => f.terminal
                        case Some(end) => f.terminal[id := end]
  {
    var f1 := LandedIs(f, mo.sequence);
    OutcomeLeads(cfg, f1, mo.sequence, mo);
    assert CompleteMember(cfg, f, r, mo) == ApplyOutcome(cfg, f1, mo.sequence, mo);
  }

  /** A prepared step that reports no success leads its sequence where a completion would. */
  lemma FailureLeads(cfg: Config, f: FabricState, pd: PreparedDecode, pm: PreparedMember)
    requires Authentic(f, pm.auth) && !Ended(f.seqs[pm.auth.sequence].state)
    requires pm.outcome.kind !in {0, 1} && pm.outcome.sequence == pm.auth.sequence
    ensures var f', id := AuthoriseMember(cfg, f, pd, pm).0, pm.auth.sequence;
      && Grounded(f, f', id) && Outcome(cfg, f, f.seqs[id], f'.seqs[id], pm.outcome.kind)
      && f'.terminal == match Ending(cfg, f.seqs[id], pm.outcome.kind)
                        case None => f.terminal
                        case Some(end) => f.terminal[id := end]
  {
    var f1 := LandedIs(f, pm.auth.sequence);
    var f' := FailureApplied(cfg, f, f1, pd, pm);
    OutcomeLeads(cfg, f1, pm.auth.sequence, pm.outcome);
  }

  lemma FailureApplied(cfg: Config, f: FabricState, f1: FabricState, pd: PreparedDecode, pm: PreparedMember)
    returns (f': FabricState)
    requires Authentic(f, pm.auth) && !Ended(f.seqs[pm.auth.sequence].state) && pm.outcome.kind !in {0, 1}
    requires f1 == Landed(f, pm.auth.sequence)
    ensures f' == AuthoriseMember(cfg, f, pd, pm).0 == ApplyOutcome(cfg, f1, pm.auth.sequence, pm.outcome)
  {
    f' := AuthoriseMember(cfg, f, pd, pm).0;
  }

  /** A batch of outcomes is applied as its parts are, one after the other. */
  lemma {:induction false} OutcomesCompose(cfg: Config, f: FabricState, r: ExecutionResult, a: seq<MemberOutcome>,
                                           b: seq<MemberOutcome>)
    ensures Complete(cfg, f, r.(outcomes := a + b), |a + b|)
         == Complete(cfg, Complete(cfg, f, r.(outcomes := a), |a|), r.(outcomes := b), |b|)
  {
    if b == [] {
      assert a + b == a;
    } else {
      var front, mo := b[..|b| - 1], b[|b| - 1];
      OutcomesCompose(cfg, f, r, a, front);
      var f1 := Complete(cfg, f, r.(outcomes := a), |a|);
      OneMore(cfg, f, r, a + front, mo, a + b);
      OneMore(cfg, f1, r, front, mo, b);
    }
  }

  lemma OneMore(cfg: Config, f: FabricState, r: ExecutionResult, front: seq<MemberOutcome>, mo: MemberOutcome,
                all: seq<MemberOutcome>)
    requires all == front + [mo]
    ensures Complete(cfg, f, r.(outcomes := all), |all|)
         == CompleteMember(cfg, Complete(cfg, f, r.(outcomes := front), |front|), r, mo)
  {
    OutcomesNamed(cfg, f, r.(outcomes := all), r.(outcomes := front), |front|);
    SameVoice(cfg, Complete(cfg, f, r.(outcomes := front), |front|), r.(outcomes := all), r, mo);
  }

  lemma {:induction false} OutcomesNamed(cfg: Config, f: FabricState, r: ExecutionResult, q: ExecutionResult, n: nat)
    requires q == r.(outcomes := q.outcomes) && n <= |r.outcomes| && n <= |q.outcomes|
    requires forall i | 0 <= i < n :: r.outcomes[i] == q.outcomes[i]
    ensures Complete(cfg, f, r, n) == Complete(cfg, f, q, n)
  {
    if n > 0 {
      OutcomesNamed(cfg, f, r, q, n - 1);
      SameVoice(cfg, Complete(cfg, f, r, n - 1), r, q, r.outcomes[n - 1]);
    }
  }

  lemma SameVoice(cfg: Config, f: FabricState, r: ExecutionResult, q: ExecutionResult, mo: MemberOutcome)
    requires q == r.(outcomes := q.outcomes)
    ensures CompleteMember(cfg, f, r, mo) == CompleteMember(cfg, f, q, mo)
  {
  }

  // ---------------------------------------------------------------------------
  // Admission

  /** Some worker that is asked offers what the request needs, on the device it asks for. */
  ghost predicate Offered(f: FabricState, workerOrder: seq<nat>, req: DecodeRequest) {
    exists j, i | 0 <= j < |workerOrder| && workerOrder[j] in f.workers
      && 0 <= i < |f.workers[workerOrder[j]].models| :: Suits(f.workers[workerOrder[j]], i, req)
  }

  predicate Suits(w: Worker, i: nat, req: DecodeRequest)
    requires i < |w.models|
  {
    && w.models[i].model == req.model && w.models[i].revision == req.revision && w.models[i].adapter == req.adapter
    && (req.deviceConstraint != NULL ==> w.device.id == req.deviceConstraint)
  }

  lemma {:induction false} KeyAmongExactly(w: Worker, req: DecodeRequest, ks: seq<CompatibilityKey>)
    requires |ks| <= |w.models| && ks == w.models[|w.models| - |ks|..]
    ensures KeyAmong(w, req, ks).Some? <==> exists i | |w.models| - |ks| <= i < |w.models| :: Suits(w, i, req)
  {
    if ks != [] {
      var at := |w.models| - |ks|;
      assert ks[0] == w.models[at] && ks[1..] == w.models[at + 1..];
      KeyAmongExactly(w, req, ks[1..]);
      if Serves(w, req, ks[0]) {
        assert Suits(w, at, req);
      }
    }
  }

  lemma {:induction false} KeyForExactly(f: FabricState, workerOrder: seq<nat>, req: DecodeRequest)
    ensures KeyFor(f, workerOrder, req).Some? <==> Offered(f, workerOrder, req)
  {
    if workerOrder != [] {
      var w, rest := workerOrder[0], workerOrder[1..];
      KeyForExactly(f, rest, req);
      if w in f.workers {
        assert f.workers[w].models == f.workers[w].models[0..];
        KeyAmongExactly(f.workers[w], req, f.workers[w].models);
      }
      if Offered(f, rest, req) {
        var j, i :| 0 <= j < |rest| && rest[j] in f.workers
          && 0 <= i < |f.workers[rest[j]].models| && Suits(f.workers[rest[j]], i, req);
        assert workerOrder[j + 1] == rest[j];
      }
      if Offered(f, workerOrder, req) {
        var j, i :| 0 <= j < |workerOrder| && workerOrder[j] in f.workers
          && 0 <= i < |f.workers[workerOrder[j]].models| && Suits(f.workers[workerOrder[j]], i, req);
        if j > 0 {
          assert rest[j - 1] == workerOrder[j];
        }
      }
    }
  }

  lemma {:induction false} KeyAmongFirst(w: Worker, req: DecodeRequest, ks: seq<CompatibilityKey>) returns (i: nat)
    requires |ks| <= |w.models| && ks == w.models[|w.models| - |ks|..] && KeyAmong(w, req, ks).Some?
    ensures |w.models| - |ks| <= i < |w.models| && KeyAmong(w, req, ks) == Some(w.models[i]) && Suits(w, i, req)
    ensures forall k | |w.models| - |ks| <= k < i :: !Suits(w, k, req)
  {
    var at := |w.models| - |ks|;
    assert ks[0] == w.models[at] && ks[1..] == w.models[at + 1..];
    if Suits(w, at, req) {
      i := at;
    } else {
      i := KeyAmongFirst(w, req, ks[1..]);
    }
  }

  /** Some key of this worker suits the request. */
  ghost predicate SuitsAny(f: FabricState, w: nat, req: DecodeRequest) {
    w in f.workers && exists i | 0 <= i < |f.workers[w].models| :: Suits(f.workers[w], i, req)
  }

  /** The key is the first suitable one of the first worker that has any. */
  lemma {:induction false} KeyForFirst(f: FabricState, workerOrder: seq<nat>, req: DecodeRequest)
    returns (j: nat, i: nat)
    requires KeyFor(f, workerOrder, req).Some?
    ensures j < |workerOrder| && workerOrder[j] in f.workers && i < |f.workers[workerOrder[j]].models|
    ensures var w := f.workers[workerOrder[j]];
      && KeyFor(f, workerOrder, req) == Some(w.models[i]) && Suits(w, i, req)
      && forall k | 0 <= k < i :: !Suits(w, k, req)
    ensures forall k | 0 <= k < j :: !SuitsAny(f, workerOrder[k], req)
  {
    var w, rest := workerOrder[0], workerOrder[1..];
    if w in f.workers {
      assert f.workers[w].models == f.workers[w].models[0..];
      KeyAmongExactly(f.workers[w], req, f.workers[w].models);
    }
    if w in f.workers && KeyAmong(f.workers[w], req, f.workers[w].models).Some? {
      j := 0;
      i := KeyAmongFirst(f.workers[w], req, f.workers[w].models);
    } else {
      var j0;
      j0, i := KeyForFirst(f, rest, req);
      j := j0 + 1;
      assert workerOrder[j] == rest[j0];
      forall k | 0 <= k < j ensures !SuitsAny(f, workerOrder[k], req) {
        assert k > 0 ==> workerOrder[k] == rest[k - 1];
      }
    }
  }

  /** A request is admitted if and only if it is complete, let in, servable and new; and how it then starts. */
  lemma AdmittedExactly(f: FabricState, req: DecodeRequest, workerOrder: seq<nat>, admit: bool)
    ensures var f' := Submit(f, req, workerOrder, admit); var id := req.sequence;
      if && admit && id !in f.seqs && Offered(f, workerOrder, req) && req.id != NULL && id != NULL && req.tenant != NULL
         && req.model != NULL && req.revision != NULL && 0 < req.maxGeneration && req.pregenerated <= req.maxGeneration
         && req.tenantWeight > 0.0
      then
        && id in f'.seqs && f' == f.(seqs := f.seqs[id := f'.seqs[id]])
        && var s := f'.seqs[id];
        && s.req == req && s.kv == req.state && s.state == Ready && s.attemptCount == 1
        && s.attempt == (if req.initialAttempt != NULL then req.initialAttempt else req.id)
        && s.tally.generated == s.tally.committed == s.tally.budget.generated == req.pregenerated
        && s.tally.budget.max == req.maxGeneration && s.tally.currentLength == req.promptLength + req.pregenerated
        && s.tally.generation == 1 && !s.tally.digestEstablished && s.tally.accepted == None
        && s.pending == None && s.flight.dispatch == NULL && !s.flight.active && s.reservation == NULL
      else f' == f
  {
    KeyForExactly(f, workerOrder, req);
  }

  // ---------------------------------------------------------------------------
  // Scheduling

  /** The sequence may run and some worker that is asked can run it. */
  ghost predicate Waits(f: FabricState, workerOrder: seq<nat>, id: nat) {
    && id in f.seqs && f.seqs[id].state in {Waiting, Ready, ReadyForNextToken, Yielded}
    && f.seqs[id].tally.budget.generated < f.seqs[id].tally.budget.max
    && KeyFor(f, workerOrder, f.seqs[id].req).Some?
    && KeyFor(f, workerOrder, f.seqs[id].req).value.model != NULL
    && KeyFor(f, workerOrder, f.seqs[id].req).value.device != NULL
  }

  /** A candidate has the tenant and latency class its sequence asked with, the key found for it and its score. */
  predicate Stands(f: FabricState, workerOrder: seq<nat>, score: map<nat, real>, c: G.Candidate) {
    && c.sequence in f.seqs && c.tenant == f.seqs[c.sequence].req.tenant
    && c.latencyClass == f.seqs[c.sequence].req.latencyClass
    && KeyFor(f, workerOrder, f.seqs[c.sequence].req) == Some(c.key)
    && c.score == if c.sequence in score then score[c.sequence] else 0.0
  }

  lemma CollectOneExactly(f: FabricState, id: nat, workerOrder: seq<nat>, score: map<nat, real>)
    ensures var (f', more) := CollectOne(f, id, workerOrder, score);
      && (Waits(f, workerOrder, id) ==>
            f' == f && |more| == 1 && more[0].sequence == id && Stands(f, workerOrder, score, more[0]))
      && (!Waits(f, workerOrder, id) ==> more == [])
      && f'.workers == f.workers && (forall k | k in f.seqs && k != id :: k in f'.seqs && f'.seqs[k] == f.seqs[k])
  {
  }

  lemma WaitsStays(f: FabricState, f': FabricState, workerOrder: seq<nat>, id: nat)
    requires f'.workers == f.workers && (id in f'.seqs <==> id in f.seqs)
    requires id in f.seqs ==> f'.seqs[id] == f.seqs[id]
    ensures Waits(f', workerOrder, id) <==> Waits(f, workerOrder, id)
  {
    if id in f.seqs {
      SameKey(f, f', workerOrder, f.seqs[id].req);
    }
  }

  lemma {:induction false} SameKey(f: FabricState, f': FabricState, workerOrder: seq<nat>, req: DecodeRequest)
    requires f'.workers == f.workers
    ensures KeyFor(f', workerOrder, req) == KeyFor(f, workerOrder, req)
  {
    if workerOrder != [] {
      SameKey(f, f', workerOrder[1..], req);
    }
  }

  predicate Listed(cs: seq<G.Candidate>, id: nat) {
    exists c | c in cs :: c.sequence == id
  }

  /** Candidates are exactly the sequences that wait, with what they asked for and the scores they were given. */
  lemma {:induction false} CollectedExactly(f: FabricState, order: seq<nat>, workerOrder: seq<nat>,
                                            score: map<nat, real>)
    requires PS.NoRepeats(order)
    ensures var (f', cs) := Collect(f, order, workerOrder, score);
      && f'.workers == f.workers && f'.seqs.Keys == f.seqs.Keys
      && (forall id | id in f.seqs && id !in order :: f'.seqs[id] == f.seqs[id])
      && (forall id :: Listed(cs, id) <==> id in order && Waits(f, workerOrder, id))
      && (forall c | c in cs :: Stands(f, workerOrder, score, c))
  {
    if order != [] {
      var front, id := order[..|order| - 1], order[|order| - 1];
      assert order == front + [id] && id !in front;
      CollectedExactly(f, front, workerOrder, score);
      var (f1, cs) := Collect(f, front, workerOrder, score);
      CollectOneExactly(f1, id, workerOrder, score);
      var (f2, more) := CollectOne(f1, id, workerOrder, score);
      WaitsStays(f, f1, workerOrder, id);
      if id in f.seqs {
        SameKey(f, f1, workerOrder, f.seqs[id].req);
      }
      forall k ensures Listed(cs + more, k) <==> Listed(cs, k) || (k == id && Waits(f, workerOrder, id)) {
        ListedBoth(cs, more, k);
        if more != [] {
          assert more == [more[0]];
        }
      }
    }
  }

  /** The sequence could run but for its budget. */
  predicate Spent(f: FabricState, id: nat) {
    && id in f.seqs && f.seqs[id].state in {Waiting, Ready, ReadyForNextToken, Yielded}
    && f.seqs[id].tally.budget.generated >= f.seqs[id].tally.budget.max
  }

  predicate ClosedAs(f: FabricState, f': FabricState, id: nat) {
    && id in f.seqs && id in f'.seqs && f'.seqs[id] == f.seqs[id].(reservation := NULL)
    && id in f'.terminal && f'.terminal[id] == Completed
  }

  lemma CollectOneCloses(f: FabricState, id: nat, workerOrder: seq<nat>, score: map<nat, real>, k: nat)
    requires k in f.seqs
    ensures var f' := CollectOne(f, id, workerOrder, score).0;
      if k == id && Spent(f, id) then ClosedAs(f, f', k) else Same(f, f', k)
  {
  }

  /** Whatever has used up its budget is recorded as completed, and has its state still. Nothing else is touched. */
  lemma {:induction false} CollectCloses(f: FabricState, order: seq<nat>, workerOrder: seq<nat>,
                                         score: map<nat, real>, id: nat)
    requires id in f.seqs
    ensures var f' := Collect(f, order, workerOrder, score).0;
      if id in order && Spent(f, id) then ClosedAs(f, f', id) else Same(f, f', id)
  {
    if order != [] {
      var front, k := order[..|order| - 1], order[|order| - 1];
      assert order == front + [k];
      CollectCloses(f, front, workerOrder, score, id);
      CollectOneCloses(Collect(f, front, workerOrder, score).0, k, workerOrder, score, id);
    }
  }

  lemma ListedBoth(a: seq<G.Candidate>, b: seq<G.Candidate>, id: nat)
    ensures Listed(a + b, id) <==> Listed(a, id) || Listed(b, id)
  {
    if Listed(a, id) {
      var c :| c in a && c.sequence == id;
      assert c in a + b;
    }
    if Listed(b, id) {
      var c :| c in b && c.sequence == id;
      assert c in a + b;
    }
  }

  /** The bytes a sequence is expected to grow by; 64 when it does not say. */
  function Demand(s: Sequence): nat {
    if s.kv.estimatedGrowth > 0 then s.kv.estimatedGrowth else 64
  }

  function DemandOf(f: FabricState, ms: seq<G.Candidate>): nat {
    if ms == [] then 0 else
      (if ms[0].sequence in f.seqs then Demand(f.seqs[ms[0].sequence]) else 64) + DemandOf(f, ms[1..])
  }

  lemma {:induction false} DemandSplits(f: FabricState, ms: seq<G.Candidate>)
    requires ms != []
    ensures DemandOf(f, ms) == DemandOf(f, ms[..|ms| - 1]) + DemandOf(f, [ms[|ms| - 1]])
  {
    if |ms| == 1 {
      assert ms[..0] == [] && ms == [ms[0]];
    } else {
      assert ms[1..][..|ms| - 2] == ms[..|ms| - 1][1..];
      DemandSplits(f, ms[1..]);
    }
  }

  /** A group reserves the sum of what its members are expected to grow by, on 64 bits. */
  lemma {:induction false} GrowthExactly(f: FabricState, ms: seq<G.Candidate>)
    ensures Growth(f, ms) == DemandOf(f, ms) % TWO64
  {
    if ms != [] {
      GrowthExactly(f, ms[..|ms| - 1]);
      DemandSplits(f, ms);
      assert [ms[|ms| - 1]][1..] == [];
      SumOnWords(DemandOf(f, ms[..|ms| - 1]), DemandOf(f, [ms[|ms| - 1]]));
    }
  }

  lemma SumOnWords(a: nat, b: nat)
    ensures (a % TWO64 + b) % TWO64 == (a + b) % TWO64
  {
    var q := a / TWO64;
    assert a == q * TWO64 + a % TWO64;
  }

  /** What a member is sent out with. */
  predicate Described(id: nat, s: Sequence, m: MemberSpec) {
    && m.sequence == id && m.attempt == s.attempt && m.generation == s.tally.generation && m.state == s.kv
    && m.currentLength == s.tally.currentLength && m.generatedTokens == s.tally.generated
    && m.generatedTokens + m.remainingBudget == s.req.maxGeneration && m.payload == s.req.sampling
  }

  lemma SpecTells(cfg: Config, id: nat, s: Sequence)
    requires Lockstep(cfg, s)
    ensures Described(id, s, SpecOf(id, s))
  {
  }

  predicate BoundAs(s: Sequence, t: Sequence, d: nat, worker: nat, rid: nat) {
    t.flight == Flight(d, worker, s.tally.generation, true) && t.reservation == rid && t.tally == s.tally
  }

  lemma BindOne(f: FabricState, id: nat, d: nat, worker: nat, rid: nat)
    requires id in f.seqs
    ensures var f' := Bind(f, id, d, worker, rid);
      && id in f'.seqs && BoundAs(f.seqs[id], f'.seqs[id], d, worker, rid)
      && forall k | k in f.seqs && k != id :: k in f'.seqs && f'.seqs[k] == f.seqs[k]
  {
  }

  lemma LastBound(f: FabricState, front: seq<G.Candidate>, id: nat, d: nat, worker: nat, rid: nat)
    returns (f': FabricState)
    requires id in f.seqs
    ensures f' == Bind(BindAll(f, front, d, worker, rid), id, d, worker, rid)
    ensures id in f'.seqs && BoundAs(f.seqs[id], f'.seqs[id], d, worker, rid)
  {
    PS.BindCarries(f, front, d, worker, rid);
    var f1 := BindAll(f, front, d, worker, rid);
    assert PS.SameWork(f.seqs[id], f1.seqs[id]);
    BindOne(f1, id, d, worker, rid);
    f' := Bind(f1, id, d, worker, rid);
  }

  lemma {:induction false} BindExactly(f: FabricState, ms: seq<G.Candidate>, d: nat, worker: nat, rid: nat, i: nat)
    returns (f': FabricState)
    requires i < |ms| && Distinct(ms) && forall k | 0 <= k < |ms| :: ms[k].sequence in f.seqs
    ensures f' == BindAll(f, ms, d, worker, rid) && ms[i].sequence in f'.seqs
    ensures BoundAs(f.seqs[ms[i].sequence], f'.seqs[ms[i].sequence], d, worker, rid)
  {
    var front, last := ms[..|ms| - 1], ms[|ms| - 1].sequence;
    if i == |front| {
      f' := LastBound(f, front, last, d, worker, rid);
    } else {
      var f1 := BindExactly(f, front, d, worker, rid, i);
      assert ms[i].sequence != last;
      PS.BindKeys(f, front, d, worker, rid);
      BindOne(f1, last, d, worker, rid);
      f' := Bind(f1, last, d, worker, rid);
    }
  }

  predicate Distinct(ms: seq<G.Candidate>) {
    forall i, j | 0 <= i < j < |ms| :: ms[i].sequence != ms[j].sequence
  }

  lemma {:induction false} BindMemory(f: FabricState, ms: seq<G.Candidate>, d: nat, worker: nat, rid: nat)
    ensures BindAll(f, ms, d, worker, rid).memory == f.memory
  {
    if ms != [] {
      BindMemory(f, ms[..|ms| - 1], d, worker, rid);
    }
  }

  lemma DispatchedTo(cfg: Config, f: FabricState, workerOrder: seq<nat>, g: G.Group) returns (w: Worker)
    requires DispatchGroup(cfg, f, workerOrder, g).1 != []
    ensures Place(f, workerOrder, g.key).Some? && Place(f, workerOrder, g.key).value in f.workers
      && w == f.workers[Place(f, workerOrder, g.key).value]
    ensures DispatchGroup(cfg, f, workerOrder, g).1 == [RequestFor(cfg, f, w, g)]
  {
    w := f.workers[Place(f, workerOrder, g.key).value];
  }

  /** Text that fits bytes is spelled in them. */
  lemma TextSpelled(t: string, i: nat)
    ensures |TextBytes(t)| == |t|
    ensures i < |t| && (t[i] as int) < 256 ==> TextBytes(t)[i] == (t[i] as int) as bv8
  {
  }

  /** What a request says: whom it goes to, under which key, and with what reserved. */
  lemma RequestTells(cfg: Config, f: FabricState, workerOrder: seq<nat>, g: G.Group) returns (w: Worker)
    requires DispatchGroup(cfg, f, workerOrder, g).1 != []
    ensures Place(f, workerOrder, g.key).Some? && Place(f, workerOrder, g.key).value in f.workers
      && w == f.workers[Place(f, workerOrder, g.key).value]
    ensures var q := DispatchGroup(cfg, f, workerOrder, g).1[0];
      && q.worker == w.id && q.device == w.device && q.key == g.key
      && q.dispatch == f.next.dispatch && q.epoch == f.epoch && q.reservation == f.memory.nextReservation
      && (w.id in f.boots ==> q.workerBoot == f.boots[w.id]) && q.deadlineHint == 0
      && q.groupPayload == TextBytes(cfg.keyText(g.key))
  {
    w := DispatchedTo(cfg, f, workerOrder, g);
  }

  /** Sending a group out: a new dispatch for every member, one reservation for all, one more task for the worker. */
  lemma SentExactly(f: FabricState, w: Worker, g: G.Group, i: nat)
    requires i < |g.members| && Distinct(g.members)
      && forall k | 0 <= k < |g.members| :: g.members[k].sequence in f.seqs
    ensures var f', id, rid := SendTo(f, w, g), g.members[i].sequence, f.memory.nextReservation;
      && id in f'.seqs && f'.seqs[id].flight == Flight(f.next.dispatch, w.id, f.seqs[id].tally.generation, true)
      && f'.seqs[id].reservation == rid && rid in f'.memory.reservations
      && f'.memory.reservations[rid] == M.Reservation(w.device.id, DemandOf(f, g.members) % TWO64)
      && f'.memory.nextReservation == rid + 1 && f'.next.dispatch == f.next.dispatch + 1
      && w.id in f'.workers && f'.workers[w.id] == w.(active := w.active + 1)
  {
    GrowthExactly(f, g.members);
    var f0 := Booked(f, w, g);
    var f1 := BindExactly(f0, g.members, f.next.dispatch, w.id, f.memory.nextReservation, i);
    BindMemory(f0, g.members, f.next.dispatch, w.id, f.memory.nextReservation);
    PS.SendCounters(f, w, g);
  }
}
