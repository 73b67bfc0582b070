/**
 Snapshots as the coordinator writes and reads them, tied to `SnapshotBytes`: the writer's
 bytes, the reader's result, and what a failed read leaves behind.
 */
module Persistence {
  import opened Types
  import opened Lifecycle
  import opened Binary
  import opened ByteStreams
  import opened MapSum
  import W = WireCodec
  import S = Snapshot
  import SB = SnapshotBytes
  import F = Fabric
  import R = Recovery
  import K = Crc
  import K32 = Crc32
  import opened Coordinator

  // ---------------------------------------------------------------------------
  // Writing

  method WriteAccepted(w: Writer, o: Option<AcceptedGeneration>)
    modifies w
    ensures forall rest :: Then(w.data, rest) == Then(old(w.data), S.PutMaybe(S.PutAccepted, o, rest))
  {
    w.Flag(o.Some?);
    if o.Some? {
      WriteAcceptedRecord(w, o.value);
    }
  }

  method WriteAcceptedRecord(w: Writer, a: AcceptedGeneration)
    modifies w
    ensures forall rest :: Then(w.data, rest) == Then(old(w.data), S.PutAccepted(a, rest))
  {
    w.U64(a.key);
    W.WriteAuthority(w, a.auth);
    w.U64(a.before); w.U64(a.after);
    w.U64(a.pre); w.U64(a.post); w.U64(a.delta);
    w.Flag(a.terminal); w.Flag(a.promotionObserved);
  }

  method WriteFront(w: Writer, f: S.Front)
    modifies w
    ensures forall rest :: Then(w.data, rest) == Then(old(w.data), S.PutFront(f, rest))
  {
    w.U64(f.id);
    WriteOwner(w, f.owner);
    WriteCounts(w, f.counts);
    w.S64(f.policy.deadline); w.U32(f.policy.priority);
    w.U8(f.policy.latencyClass);
    w.U8(S.StateCode(f.policy.state));
    WriteHeld(w, f.held);
  }

  method WriteOwner(w: Writer, o: S.Owner)
    modifies w
    ensures forall rest :: Then(w.data, rest) == Then(old(w.data), S.PutOwner(o, rest))
  {
    w.U64(o.request); w.U64(o.attempt); w.U64(o.tenant); w.U64(o.model); w.U64(o.revision); w.U64(o.promptLength);
  }

  method WriteCounts(w: Writer, c: S.Counts)
    modifies w
    ensures forall rest :: Then(w.data, rest) == Then(old(w.data), S.PutCounts(c, rest))
  {
    w.U64(c.maxGeneration);
      w.U64(c.budget); w.U64(c.generation); w.U64(c.generated); w.U64(c.committed); w.U64(c.length);
  }

  method WriteHeld(w: Writer, h: S.Held)
    modifies w
    ensures forall rest :: Then(w.data, rest) == Then(old(w.data), S.PutHeld(h, rest))
  {
    w.U64(h.id); w.U64(h.generation); w.U64(h.bytes); w.U64(h.growth); w.U64(h.tag); w.U32(h.attempts);
  }

  method WriteEntry(w: Writer, e: S.Entry)
    modifies w
    ensures forall rest :: Then(w.data, rest) == Then(old(w.data), S.PutEntry(e, rest))
  {
    WriteFront(w, S.FrontOf(e));
    w.U64(e.saved.digest);
    w.Flag(e.saved.digestEstablished);
    WriteAccepted(w, e.saved.accepted);
  }

  method WriteGrantRecord(w: Writer, g: F.GrantRecord)
    modifies w
    ensures forall rest :: Then(w.data, rest) == Then(old(w.data), S.PutGrantRecord(g, rest))
  {
    W.WriteGrant(w, g.grant);
    w.U32(g.status);
    w.Flag(g.receipt.Some?);
    if g.receipt.Some? {
      W.WriteReceipt(w, g.receipt.value);
    }
  }

  method WriteEntries(w: Writer, f: DecodeFabric, order: seq<nat>)
    requires forall k | k in order :: k in f.seqs
    modifies w
    ensures forall rest ::
      Then(w.data, rest) == Then(old(w.data), SB.PutMany(S.PutEntry, EntriesOf(f.seqs, order), rest))
  {
    w.U64(|order|);
    ghost var start, es := w.data, EntriesOf(f.seqs, order);
    for i := 0 to |order|
      invariant forall rest ::
        Then(w.data, PutAll(S.PutEntry, es[i..], rest)) == Then(start, PutAll(S.PutEntry, es, rest))
    {
      assert es[i..][1..] == es[i + 1..] && es[i..][0] == es[i];
      WriteEntry(w, S.Entry(order[i], R.Save(f.seqs[order[i]])));
    }
    assert forall rest :: PutAll(S.PutEntry, es[|es|..], rest) == rest;
  }

  function EntriesOf(seqs: map<nat, F.Sequence>, order: seq<nat>): seq<S.Entry>
    requires forall k | k in order :: k in seqs
  {
    seq(|order|, i requires 0 <= i < |order| => S.Entry(order[i], R.Save(seqs[order[i]])))
  }

  method WriteRecords(w: Writer, f: DecodeFabric, order: seq<nat>)
    requires forall k | k in order :: k in f.terminalRecords
    modifies w
    ensures forall rest ::
      Then(w.data, rest) == Then(old(w.data), SB.PutMany(S.PutRecord, RecordsOf(f.terminalRecords, order), rest))
  {
    w.U64(|order|);
    ghost var start, ts := w.data, RecordsOf(f.terminalRecords, order);
    for i := 0 to |order|
      invariant forall rest ::
        Then(w.data, PutAll(S.PutRecord, ts[i..], rest)) == Then(start, PutAll(S.PutRecord, ts, rest))
    {
      assert ts[i..][1..] == ts[i + 1..] && ts[i..][0] == ts[i];
      w.U64(order[i]);
      w.U8(S.StateCode(f.terminalRecords[order[i]]));
    }
    assert forall rest :: PutAll(S.PutRecord, ts[|ts|..], rest) == rest;
  }

  function RecordsOf(records: map<nat, SequenceState>, order: seq<nat>): seq<S.Record>
    requires forall k | k in order :: k in records
  {
    seq(|order|, i requires 0 <= i < |order| => S.Record(order[i], records[order[i]]))
  }

  method WriteGrants(w: Writer, f: DecodeFabric, order: seq<nat>)
    requires forall k | k in order :: k in f.grantLedger
    modifies w
    ensures forall rest ::
      Then(w.data, rest) == Then(old(w.data), SB.PutMany(S.PutGrantRecord, GrantsOf(f.grantLedger, order), rest))
  {
    w.U64(|order|);
    ghost var start, gs := w.data, GrantsOf(f.grantLedger, order);
    for i := 0 to |order|
      invariant forall rest ::
        Then(w.data, PutAll(S.PutGrantRecord, gs[i..], rest)) == Then(start, PutAll(S.PutGrantRecord, gs, rest))
    {
      assert gs[i..][1..] == gs[i + 1..] && gs[i..][0] == gs[i];
      WriteGrantRecord(w, f.grantLedger[order[i]]);
    }
    assert forall rest :: PutAll(S.PutGrantRecord, gs[|gs|..], rest) == rest;
  }

  function GrantsOf(ledger: map<nat, F.GrantRecord>, order: seq<nat>): seq<F.GrantRecord>
    requires forall k | k in order :: k in ledger
  {
    seq(|order|, i requires 0 <= i < |order| => ledger[order[i]])
  }

  method WriteMagic(w: Writer)
    modifies w
    ensures forall rest :: Then(w.data, rest) == Then(old(w.data), SB.PutMagic(rest))
  {
    w.U8('D' as nat); w.U8('F' as nat); w.U8('S' as nat); w.U8('T' as nat);
  }

  method WritePreamble(w: Writer, f: DecodeFabric)
    modifies w
    ensures forall rest ::
      Then(w.data, rest) == Then(old(w.data), SB.PutPreamble(SB.Preamble(f.epoch, f.nextSeq, f.nextDispatch), rest))
  {
    WriteMagic(w);
    w.U32(SB.PERSISTENCE_VERSION);
    w.U64(f.epoch); w.U64(f.nextSeq); w.U64(f.nextDispatch);
  }

  method WriteClosing(w: Writer, f: DecodeFabric, o: SB.Orders)
    requires (forall k | k in o.terminal :: k in f.terminalRecords) && (forall k | k in o.ledger :: k in f.grantLedger)
    modifies w
    ensures var c := SB.Closing(RecordsOf(f.terminalRecords, o.terminal), GrantsOf(f.grantLedger, o.ledger),
      f.receiptCount);
      forall rest :: Then(w.data, rest) == Then(old(w.data), SB.PutClosing(c, rest))
  {
    WriteRecords(w, f, o.terminal);
    WriteGrants(w, f, o.ledger);
    w.U64(f.receiptCount);
  }

  lemma ListsOfFabric(f: F.FabricState, o: SB.Orders)
    requires SB.Covers(o, R.ImageOf(f))
    ensures var l := SB.ListsOf(R.ImageOf(f), o);
      && EntriesOf(f.seqs, o.seqs) == l.entries && RecordsOf(f.terminal, o.terminal) == l.records
      && GrantsOf(f.ledger, o.ledger) == l.grants
  {
  }

  method WriteBody(f: DecodeFabric, o: SB.Orders) returns (body: seq<byte>)
    requires SB.Covers(o, R.ImageOf(f.View()))
    ensures body == SB.PutBody(SB.ListsOf(R.ImageOf(f.View()), o), [])
  {
    ListsOfFabric(f.View(), o);
    var w := new Writer();
    WritePreamble(w, f);
    WriteEntries(w, f, o.seqs);
    WriteClosing(w, f, o);
    W.Whole(w.data, SB.PutBody(SB.ListsOf(R.ImageOf(f.View()), o), []));
    body := w.data;
  }

  method SerializeState(f: DecodeFabric, o: SB.Orders) returns (bytes: seq<byte>)
    requires SB.Covers(o, R.ImageOf(f.View()))
    ensures bytes == SB.Serialize(SB.ListsOf(R.ImageOf(f.View()), o))
  {
    var body := WriteBody(f, o);
    var crc := K32.Update(0xFFFFFFFF, body);
    bytes := body + K32.Bits.Bytes(K32.Not(crc));
  }

  // ---------------------------------------------------------------------------
  // Reading

  method ReadOwner(r: Reader) returns (res: Result<S.Owner>)
    requires r.Valid()
    modifies r`pos
    ensures r.Advanced(res, S.GetOwner(old(r.Rest())))
  {
    var request :- r.U64();
    var attempt :- r.U64();
    var tenant :- r.U64();
    var model :- r.U64();
    var revision :- r.U64();
    var prompt :- r.U64();
    return Ok(S.Owner(request, attempt, tenant, model, revision, prompt));
  }

  method ReadCounts(r: Reader) returns (res: Result<S.Counts>)
    requires r.Valid()
    modifies r`pos
    ensures r.Advanced(res, S.GetCounts(old(r.Rest())))
  {
    var max :- r.U64();
    var budget :- r.U64();
    var generation :- r.U64();
    var generated :- r.U64();
    var committed :- r.U64();
    var length :- r.U64();
    return Ok(S.Counts(max, budget, generation, generated, committed, length));
  }

  method ReadPolicy(r: Reader) returns (res: Result<S.Policy>)
    requires r.Valid()
    modifies r`pos
    ensures r.Advanced(res, S.GetPolicy(old(r.Rest())))
  {
    var deadline :- r.S64();
    var priority :- r.U32();
    var latency :- r.U8();
    var state :- r.U8();
    return Ok(S.Policy(deadline, priority, latency, S.StateOf(state)));
  }

  method ReadHeld(r: Reader) returns (res: Result<S.Held>)
    requires r.Valid()
    modifies r`pos
    ensures r.Advanced(res, S.GetHeld(old(r.Rest())))
  {
    var id :- r.U64();
    var generation :- r.U64();
    var held :- r.U64();
    var growth :- r.U64();
    var tag :- r.U64();
    var attempts :- r.U32();
    return Ok(S.Held(id, generation, held, growth, tag, attempts));
  }

  method ReadFront(r: Reader) returns (res: Result<S.Front>)
    requires r.Valid()
    modifies r`pos
    ensures r.Advanced(res, S.GetFront(old(r.Rest())))
  {
    var id :- r.U64();
    var owner :- ReadOwner(r);
    var counts :- ReadCounts(r);
    var policy :- ReadPolicy(r);
    var held :- ReadHeld(r);
    return Ok(S.Front(id, owner, counts, policy, held));
  }

  method ReadAcceptedRecord(r: Reader) returns (res: Result<AcceptedGeneration>)
    requires r.Valid()
    modifies r`pos
    ensures r.Advanced(res, S.GetAccepted(old(r.Rest())))
  {
    var key :- r.U64();
    var auth :- W.ReadAuthority(r);
    var before :- r.U64();
    var after :- r.U64();
    var pre :- r.U64();
    var post :- r.U64();
    var delta :- r.U64();
    var terminal :- r.Flag();
    var observed :- r.Flag();
    return Ok(AcceptedGeneration(key, auth, before, after, pre, post, delta, terminal, observed));
  }

  method ReadAccepted(r: Reader) returns (res: Result<Option<AcceptedGeneration>>)
    requires r.Valid()
    modifies r`pos
    ensures r.Advanced(res, S.GetMaybe(S.GetAccepted, old(r.Rest())))
  {
    var present :- r.Flag();
    if !present {
      return Ok(None);
    }
    var a :- ReadAcceptedRecord(r);
    return Ok(Some(a));
  }

  method ReadEntry(r: Reader) returns (res: Result<S.Entry>)
    requires r.Valid()
    modifies r`pos
    ensures r.Advanced(res, S.GetEntry(old(r.Rest())))
  {
    var f :- ReadFront(r);
    var digest :- r.U64();
    var established :- r.Flag();
    var accepted :- ReadAccepted(r);
    return Ok(S.Entry(f.id, S.Assemble(f, digest, established, accepted)));
  }

  method ReadRecord(r: Reader) returns (res: Result<S.Record>)
    requires r.Valid()
    modifies r`pos
    ensures r.Advanced(res, S.GetRecord(old(r.Rest())))
  {
    var id :- r.U64();
    var state :- r.U8();
    return Ok(S.Record(id, S.StateOf(state)));
  }

  method ReadGrantRecord(r: Reader) returns (res: Result<F.GrantRecord>)
    requires r.Valid()
    modifies r`pos
    ensures r.Advanced(res, S.GetGrantRecord(old(r.Rest())))
  {
    var g :- W.ReadGrant(r);
    var status :- r.U32();
    var present :- r.Flag();
    if !present {
      return Ok(F.GrantRecord(g, status, None));
    }
    var rec :- W.ReadReceipt(r);
    return Ok(F.GrantRecord(g, status, Some(rec)));
  }

  method ReadCount(r: Reader) returns (res: Result<nat>)
    requires r.Valid()
    modifies r`pos
    ensures r.Advanced(res, Get64(old(r.Rest()))) && (res.Ok? ==> res.value < TWO64)
  {
    BoundLE(8, r.Rest());
    Powers();
    res := r.U64();
  }

  method ReadMagic(r: Reader) returns (res: Result<()>)
    requires r.Valid()
    modifies r`pos
    ensures r.Advanced(res, SB.GetMagic(old(r.Rest())))
  {
    var m0 :- r.U8();
    var m1 :- r.U8();
    var m2 :- r.U8();
    var m3 :- r.U8();
    if m0 != 'D' as nat || m1 != 'F' as nat || m2 != 'S' as nat || m3 != 'T' as nat {
      return Err(ERR_PERSISTENCE_CORRUPT);
    }
    return Ok(());
  }

  method ReadPreamble(r: Reader) returns (res: Result<SB.Preamble>)
    requires r.Valid()
    modifies r`pos
    ensures r.Advanced(res, SB.GetPreamble(old(r.Rest())))
  {
    var _ :- ReadMagic(r);
    var version := r.U32();
    if version.Err? || version.value != SB.PERSISTENCE_VERSION {
      return Err(ERR_PERSISTENCE_VERSION);
    }
    var epoch :- r.U64();
    var next :- r.U64();
    var dispatch :- r.U64();
    return Ok(SB.Preamble(epoch, next, dispatch));
  }

  // ---------------------------------------------------------------------------
  // Recovery

  /** The sequence a persisted one becomes, with nothing in flight. */
  method LoadSequence(v: R.SavedSequence) returns (s: F.Sequence)
    ensures s == R.Load(v)
  {
    var budget := TokenBudget(v.maxGeneration, 0);
    for k := 0 to v.budgetGenerated
      invariant budget == AdvancedBy(TokenBudget(v.maxGeneration, 0), k)
    {
      budget := budget.Advance(1);
    }
    var st := v.state;
    if st.Dispatched? || st.Running? || st.Reserved? || st.Grouped? || st.StepCompleted? || st.Cancelled?
      || st.DeadlineExpired? {
      if CanTransition(st, Waiting) {
        st := Waiting;
      }
    }
    var req := F.DecodeRequest(v.request, NULL, v.tenant, v.model, v.revision, NULL, NULL, v.promptLength,
      v.maxGeneration, 0,
                               v.priority, 1.0, v.latencyClass, v.deadline, NULL, [],
                                 StateDescriptor(0, 0, 0, 0, 0, 0, 0));
    var tally := F.Tally(budget, v.currentLength, v.generated, v.committed, v.generation, v.digest,
      v.digestEstablished, v.accepted);
    s := F.Sequence(req, st, v.attempt, v.attemptCount, tally, F.Flight(NULL, NULL, 0, false), None, NULL,
                    StateDescriptor(v.stateId, v.stateGeneration, 0, v.bytesHeld, v.estimatedGrowth, v.ownerTag, 0));
  }

  ghost function Loaded(m: map<nat, R.SavedSequence>): map<nat, F.Sequence> {
    map id | id in m :: R.Load(m[id])
  }

  ghost function AllWithdrawn(m: map<nat, F.GrantRecord>): map<nat, F.GrantRecord> {
    map g | g in m :: R.Withdrawn(m[g])
  }

  lemma OneLoaded(out: seq<S.Entry>, e: S.Entry)
    ensures var m := Loaded(SB.SeqsOf(out));
      Loaded(SB.SeqsOf(out + [e])) == if e.id in m then m else m[e.id := R.Load(e.saved)]
  {
    assert (out + [e])[..|out|] == out;
  }

  lemma OneWithdrawn(out: seq<F.GrantRecord>, g: F.GrantRecord)
    ensures AllWithdrawn(SB.LedgerOf(out + [g])) == AllWithdrawn(SB.LedgerOf(out))[g.grant.grant := R.Withdrawn(g)]
  {
    assert (out + [g])[..|out|] == out;
  }

  /** Adds a sequence unless its id is already there. */
  method Emplace(f: DecodeFabric, id: nat, v: R.SavedSequence)
    modifies f`seqs
    ensures f.seqs == if id in old(f.seqs) then old(f.seqs) else old(f.seqs)[id := R.Load(v)]
  {
    var s := LoadSequence(v);
    if id !in f.seqs {
      f.seqs := f.seqs[id := s];
    }
  }

  /** Reading went as `s` says: it stands at what follows, or has failed as it did. */
  ghost predicate Ended<T>(s: Stretch<T>, rest: seq<byte>, res: Result<()>) {
    if s.end.Ok? then res.Ok? && rest == s.end.value else res == Err(s.end.error)
  }

  method RestoreEntries(f: DecodeFabric, r: Reader, n: nat, ghost s: Stretch<S.Entry>, ghost rests: seq<seq<byte>>)
    returns (res: Result<()>)
    requires r.Valid() && f.seqs == map[] && W.Trail(S.GetEntry, n, rests, s) && r.Rest() == rests[0]
    modifies f`seqs, r`pos
    ensures r.Valid() && f.seqs == Loaded(SB.SeqsOf(s.read)) && Ended(s, r.Rest(), res)
  {
    for i := 0 to n
      invariant i <= |s.read| && r.Valid() && r.Rest() == rests[i] && f.seqs == Loaded(SB.SeqsOf(s.read[..i]))
    {
      W.TrailAt(S.GetEntry, n, rests, s, i);
      var e :- ReadEntry(r);
      Emplace(f, e.id, e.saved);
      OneLoaded(s.read[..i], e);
    }
    assert s.read[..n] == s.read;
    return Ok(());
  }

  /** Restores the sequences; when reading fails, those read before it. */
  method RestoreSequences(f: DecodeFabric, r: Reader) returns (res: Result<()>)
    requires r.Valid()
    modifies f`seqs, r`pos
    ensures var s := SB.ReadMany(S.GetEntry, TWO64, old(r.Rest()));
      r.Valid() && f.seqs == Loaded(SB.SeqsOf(s.read)) && Ended(s, r.Rest(), res)
  {
    f.seqs := map[];
    var n :- ReadCount(r);
    ghost var rests := W.TrailOf(S.GetEntry, n, r.Rest());
    res := RestoreEntries(f, r, n, ReadAll(S.GetEntry, n, r.Rest()), rests);
  }

  method RestoreEachRecord(f: DecodeFabric, r: Reader, n: nat, ghost s: Stretch<S.Record>, ghost rests: seq<seq<byte>>)
    returns (res: Result<()>)
    requires r.Valid() && f.terminalRecords == map[] && W.Trail(S.GetRecord, n, rests, s) && r.Rest() == rests[0]
    modifies f`terminalRecords, r`pos
    ensures r.Valid() && f.terminalRecords == SB.TerminalOf(s.read) && Ended(s, r.Rest(), res)
  {
    for i := 0 to n
      invariant i <= |s.read| && r.Valid() && r.Rest() == rests[i] && f.terminalRecords == SB.TerminalOf(s.read[..i])
    {
      W.TrailAt(S.GetRecord, n, rests, s, i);
      var t :- ReadRecord(r);
      f.terminalRecords := f.terminalRecords[t.id := t.state];
      assert s.read[..i + 1][..i] == s.read[..i];
    }
    assert s.read[..n] == s.read;
    return Ok(());
  }

  /** Restores the terminal records; when reading fails, those read before it. */
  method RestoreRecords(f: DecodeFabric, r: Reader) returns (res: Result<()>)
    requires r.Valid() && f.terminalRecords == map[]
    modifies f`terminalRecords, r`pos
    ensures var s := SB.ReadMany(S.GetRecord, TWO64, old(r.Rest()));
      r.Valid() && f.terminalRecords == SB.TerminalOf(s.read) && Ended(s, r.Rest(), res)
  {
    var n :- ReadCount(r);
    ghost var rests := W.TrailOf(S.GetRecord, n, r.Rest());
    res := RestoreEachRecord(f, r, n, ReadAll(S.GetRecord, n, r.Rest()), rests);
  }

  method RestoreEachGrant(f: DecodeFabric, r: Reader, n: nat, ghost s: Stretch<F.GrantRecord>,
                          ghost rests: seq<seq<byte>>)
    returns (res: Result<()>)
    requires r.Valid() && f.grantLedger == map[] && W.Trail(S.GetGrantRecord, n, rests, s) && r.Rest() == rests[0]
    modifies f`grantLedger, r`pos
    ensures r.Valid() && f.grantLedger == AllWithdrawn(SB.LedgerOf(s.read)) && Ended(s, r.Rest(), res)
  {
    for i := 0 to n
      invariant i <= |s.read| && r.Valid() && r.Rest() == rests[i]
        && f.grantLedger == AllWithdrawn(SB.LedgerOf(s.read[..i]))
    {
      W.TrailAt(S.GetGrantRecord, n, rests, s, i);
      var g :- ReadGrantRecord(r);
      f.grantLedger := f.grantLedger[g.grant.grant := if g.status == F.GRANT_PENDING
        then g.(status := F.GRANT_ABORTED) else g];
      OneWithdrawn(s.read[..i], g);
    }
    assert s.read[..n] == s.read;
    return Ok(());
  }

  /** Restores the grants, pending ones withdrawn; when reading fails, those read before it. */
  method RestoreGrants(f: DecodeFabric, r: Reader) returns (res: Result<()>)
    requires r.Valid()
    modifies f`grantLedger, r`pos
    ensures var s := SB.ReadMany(S.GetGrantRecord, SB.MAX_GRANTS, old(r.Rest()));
      r.Valid() && f.grantLedger == AllWithdrawn(SB.LedgerOf(s.read)) && Ended(s, r.Rest(), res)
  {
    f.grantLedger := map[];
    var n :- ReadCount(r);
    if n > SB.MAX_GRANTS {
      return Err(ERR_PERSISTENCE_INVALID_FIELD);
    }
    ghost var rests := W.TrailOf(S.GetGrantRecord, n, r.Rest());
    res := RestoreEachGrant(f, r, n, ReadAll(S.GetGrantRecord, n, r.Rest()), rests);
  }

  /** Adds up the finalised generations and the generated tokens of all sequences. */
  method Recount(seqs: map<nat, F.Sequence>) returns (steps: nat, tokens: nat)
    ensures steps == Total(seqs, R.Steps) && tokens == Total(seqs, R.Generated)
  {
    steps, tokens := 0, 0;
    var todo := seqs;
    while todo != map[]
      invariant steps + Total(todo, R.Steps) == Total(seqs, R.Steps)
      invariant tokens + Total(todo, R.Generated) == Total(seqs, R.Generated)
      decreases |todo|
    {
      var k :| k in todo;
      TotalTake(todo, R.Steps, k);
      TotalTake(todo, R.Generated, k);
      var s := todo[k];
      tokens := tokens + s.tally.generated;
      if s.tally.generation >= 1 {
        steps := steps + s.tally.generation - 1;
      }
      todo := todo - {k};
    }
  }

  /** What a failure past the sequences leaves: the records read so far, then the grants read so far. */
  ghost function ClosingLeft(f: F.FabricState, bs: seq<byte>): F.FabricState {
    var rs := SB.ReadMany(S.GetRecord, TWO64, bs);
    var f1 := f.(terminal := SB.TerminalOf(rs.read));
    if rs.end.Err? then f1 else
      f1.(ledger := AllWithdrawn(SB.LedgerOf(SB.ReadMany(S.GetGrantRecord, SB.MAX_GRANTS, rs.end.value).read)),
          stats := f1.stats.(receiptCount := 0))
  }

  /** What a failure past the counters leaves: they are taken over, and everything read so far is restored. */
  ghost function Left(f: F.FabricState, p: SB.Preamble, bs: seq<byte>): F.FabricState {
    var es := SB.ReadMany(S.GetEntry, TWO64, bs);
    var f1 := f.(epoch := p.epoch, next := F.Counters(p.nextSequence, p.nextDispatch, f.next.grant),
                 seqs := Loaded(SB.SeqsOf(es.read)), terminal := map[]);
    if es.end.Err? then f1 else ClosingLeft(f1, es.end.value)
  }

  method RestoreClosing(f: DecodeFabric, r: Reader) returns (res: Result<()>)
    requires r.Valid() && f.terminalRecords == map[]
    modifies f`terminalRecords, f`grantLedger, f`receiptCount, r`pos
    ensures match SB.GetClosing(old(r.Rest()))
      case Ok(g) => && res.Ok? && f.terminalRecords == SB.TerminalOf(g.value.records)
                    && f.grantLedger == AllWithdrawn(SB.LedgerOf(g.value.grants))
                      && f.receiptCount == g.value.receiptCount
      case Err(e) => res == Err(e) && f.View() == ClosingLeft(old(f.View()), old(r.Rest()))
  {
    SB.ManyOrNothing(S.GetRecord, TWO64, r.Rest());
    var _ :- RestoreRecords(f, r);
    SB.ManyOrNothing(S.GetGrantRecord, SB.MAX_GRANTS, r.Rest());
    f.receiptCount := 0;
    var _ :- RestoreGrants(f, r);
    var n :- r.U64();
    f.receiptCount := n;
    return Ok(());
  }

  /** The fields recovery assigns. */
  lemma RestoredFields(into: F.FabricState, l: SB.Lists)
    ensures var seqs := Loaded(SB.SeqsOf(l.entries));
      R.Restore(into, SB.ImageFrom(l)) ==
        into.(epoch := l.epoch, seqs := seqs, terminal := SB.TerminalOf(l.records),
              ledger := AllWithdrawn(SB.LedgerOf(l.grants)),
              next := F.Counters(l.nextSequence, l.nextDispatch, into.next.grant),
              stats := F.Stats(l.receiptCount, Total(seqs, R.Steps), Total(seqs, R.Generated), into.stats.tenantTokens))
  {
  }

  method RestoreBody(f: DecodeFabric, r: Reader, p: SB.Preamble) returns (res: Result<()>)
    requires r.Valid()
    modifies f, r`pos
    ensures match SB.GetLists(p, old(r.Rest()))
      case Ok(g) => res.Ok? && f.View() == R.Restore(old(f.View()), SB.ImageFrom(g.value))
      case Err(e) => res == Err(e) && f.View() == Left(old(f.View()), p, old(r.Rest()))
  {
    ghost var es := SB.ReadMany(S.GetEntry, TWO64, r.Rest());
    SB.ListsSplit(p, r.Rest());
    f.epoch, f.nextSeq, f.nextDispatch := p.epoch, p.nextSequence, p.nextDispatch;
    f.terminalRecords := map[];
    var _ :- RestoreSequences(f, r);
    res := RestoreRest(f, r, old(f.View()), p, es.read);
  }

  /** Counters and sequences are in place; the rest of the snapshot follows. */
  ghost predicate Begun(f: F.FabricState, into: F.FabricState, p: SB.Preamble, entries: seq<S.Entry>) {
    f == into.(epoch := p.epoch, next := F.Counters(p.nextSequence, p.nextDispatch, into.next.grant),
               seqs := Loaded(SB.SeqsOf(entries)), terminal := map[])
  }

  method RestoreRest(f: DecodeFabric, r: Reader, ghost into: F.FabricState, ghost p: SB.Preamble,
                     ghost entries: seq<S.Entry>)
    returns (res: Result<()>)
    requires r.Valid() && Begun(f.View(), into, p, entries)
    modifies f, r`pos
    ensures match SB.GetClosing(old(r.Rest()))
      case Ok(c) => res.Ok? && f.View() == R.Restore(into, SB.ImageFrom(SB.WithEntries(p, entries, c.value)))
      case Err(e) => res == Err(e) && f.View() == ClosingLeft(old(f.View()), old(r.Rest()))
  {
    ghost var c := SB.GetClosing(r.Rest());
    var _ :- RestoreClosing(f, r);
    RestoreStats(f, into, SB.WithEntries(p, entries, c.value.value));
    return Ok(());
  }

  /** The derived counters are recomputed, never read. */
  method RestoreStats(f: DecodeFabric, ghost into: F.FabricState, ghost l: SB.Lists)
    requires f.View()
      == into.(epoch := l.epoch, seqs := Loaded(SB.SeqsOf(l.entries)), terminal := SB.TerminalOf(l.records),
                               ledger := AllWithdrawn(SB.LedgerOf(l.grants)),
                               next := F.Counters(l.nextSequence, l.nextDispatch, into.next.grant),
                               stats := into.stats.(receiptCount := l.receiptCount))
    modifies f`decodeSteps, f`generatedTokens
    ensures f.View() == R.Restore(into, SB.ImageFrom(l))
  {
    f.decodeSteps, f.generatedTokens := Recount(f.seqs);
    RestoredFields(into, l);
  }

  method ChecksumGood(bytes: seq<byte>) returns (good: bool)
    requires |bytes| >= 5
    ensures good == K.Accepts(K32.Bits, bytes)
  {
    var computed := K32.Update(0xFFFFFFFF, bytes[..|bytes| - 4]);
    good := K32.Bits.Word(bytes[|bytes| - 4..]) == K32.Not(computed);
  }

  /**
   Nothing is touched before the length, the checksum, the magic and the version have been
   found good and the counters read. A snapshot that parses is restored completely; one that
   breaks off later leaves what was read of it.
   */
  method RecoverState(f: DecodeFabric, bytes: seq<byte>) returns (res: Result<()>)
    modifies f
    ensures |bytes| < 5 || !K.Accepts(K32.Bits, bytes) || SB.GetPreamble(bytes).Err? ==>
      res.Err? && f.View() == old(f.View())
    ensures match SB.Parse(bytes)
      case Ok(l) => res.Ok? && f.View() == R.Restore(old(f.View()), SB.ImageFrom(l))
      case Err(e) => res == Err(e)
    ensures |bytes| >= 5 && K.Accepts(K32.Bits, bytes) && SB.GetPreamble(bytes).Ok? && SB.Parse(bytes).Err? ==>
      f.View() == Left(old(f.View()), SB.GetPreamble(bytes).value.value, SB.GetPreamble(bytes).value.rest)
  {
    if |bytes| < 5 {
      return Err(ERR_PERSISTENCE_TRUNCATED);
    }
    var good := ChecksumGood(bytes);
    if !good {
      return Err(ERR_PERSISTENCE_CHECKSUM);
    }
    var r := new Reader(bytes);
    var p :- ReadPreamble(r);
    res := RestoreBody(f, r, p);
  }

  /** Counters, sequences and terminal records of a snapshot, and an empty ledger. */
  ghost function WithoutLedger(f: F.FabricState, l: SB.Lists): F.FabricState {
    f.(epoch := l.epoch, next := F.Counters(l.nextSequence, l.nextDispatch, f.next.grant),
       seqs := Loaded(SB.SeqsOf(l.entries)), terminal := SB.TerminalOf(l.records), ledger := map[],
       stats := f.stats.(receiptCount := 0))
  }

  /**
   A snapshot with more grants than the limit is written and cannot be read back: recovery
   reports it, after it has taken over everything but the grants and emptied the ledger.
   */
  lemma OverfullLeft(f: F.FabricState, l: SB.Lists)
    requires SB.InRange(l) && |l.grants| > SB.MAX_GRANTS
    ensures var bytes := SB.Serialize(l);
      && SB.Parse(bytes) == Err(ERR_PERSISTENCE_INVALID_FIELD)
      && |bytes| >= 5 && K.Accepts(K32.Bits, bytes) && SB.GetPreamble(bytes).Ok?
      && Left(f, SB.GetPreamble(bytes).value.value, SB.GetPreamble(bytes).value.rest) == WithoutLedger(f, l)
  {
    var bytes, body := SB.Serialize(l), SB.PutBody(l, []);
    var q := bytes[|body|..];
    SB.ParsesExactly(l);
    K32.BitsLawful();
    K.SealedAccepted(K32.Bits, body);
    assert bytes == body + q;
    SB.ReadUpTo(l, q);
    SB.OverfullBody(l, q);
    LeftAfter(f, l, q);
  }

  lemma LeftAfter(f: F.FabricState, l: SB.Lists, q: seq<byte>)
    requires SB.GetMany(S.GetEntry, TWO64, SB.AfterPreamble(l) + q) == Ok(Got(l.entries, SB.AfterEntries(l) + q))
    requires SB.GetMany(S.GetRecord, TWO64, SB.AfterEntries(l) + q) == Ok(Got(l.records, SB.AfterRecords(l) + q))
    requires SB.ReadMany(S.GetGrantRecord, SB.MAX_GRANTS, SB.AfterRecords(l) + q).read == []
    ensures Left(f, SB.Preamble(l.epoch, l.nextSequence, l.nextDispatch), SB.AfterPreamble(l) + q)
      == WithoutLedger(f, l)
  {
    SB.ManyOrNothing(S.GetEntry, TWO64, SB.AfterPreamble(l) + q);
    SB.ManyOrNothing(S.GetRecord, TWO64, SB.AfterEntries(l) + q);
    assert SB.LedgerOf([]) == map[];
  }
}
