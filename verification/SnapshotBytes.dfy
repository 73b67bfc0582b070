/** Whole snapshots: the sealed bytes of an image, and the image read back from bytes. */
module SnapshotBytes {
  import opened Types
  import opened Binary
  import opened Snapshot
  import opened Lifecycle
  import F = Fabric
  import FI = FabricInvariants
  import R = Recovery
  import K = Crc
  import K32 = Crc32

  const PERSISTENCE_VERSION: nat := 3
  const MAX_GRANTS: nat := 0x40_0000

  /** What a snapshot lists, in the order it lists it. */
  datatype Lists = Lists(
    epoch: nat, nextSequence: nat, nextDispatch: nat,
    entries: seq<Entry>, records: seq<Record>, grants: seq<F.GrantRecord>, receiptCount: nat)

  /** Every number is in the range of its field. */
  predicate InRange(l: Lists) {
    && l.epoch < TWO64 && l.nextSequence < TWO64 && l.nextDispatch < TWO64 && l.receiptCount < TWO64
    && |l.entries| < TWO64 && |l.records| < TWO64 && |l.grants| < TWO64
    && (forall e | e in l.entries :: FitsEntry(e))
    && (forall t | t in l.records :: FitsRecord(t))
    && (forall g | g in l.grants :: FitsGrantRecord(g))
  }

  predicate FitsLists(l: Lists) {
    InRange(l) && |l.grants| <= MAX_GRANTS
  }

  // ---------------------------------------------------------------------------
  // Magic, version and counters

  function PutMagic(rest: seq<byte>): (r: seq<byte>)
    ensures GetMagic(r) == Ok(Got((), rest))
  {
    Put8('D' as nat, Put8('F' as nat, Put8('S' as nat, Put8('T' as nat, rest))))
  }

  function GetMagic(bs: seq<byte>): Result<Got<()>> {
    var m0 :- Get8(bs);
    var m1 :- Get8(m0.rest);
    var m2 :- Get8(m1.rest);
    var m3 :- Get8(m2.rest);
    if m0.value == 'D' as nat && m1.value == 'F' as nat && m2.value == 'S' as nat && m3.value == 'T' as nat
    then Ok(Got((), m3.rest)) else Err(ERR_PERSISTENCE_CORRUPT)
  }

  datatype Preamble = Preamble(epoch: nat, nextSequence: nat, nextDispatch: nat)

  function PutPreamble(p: Preamble, rest: seq<byte>): (r: seq<byte>)
    ensures p.epoch < TWO64 && p.nextSequence < TWO64 && p.nextDispatch < TWO64 ==> GetPreamble(r) == Ok(Got(p, rest))
  {
    PutMagic(Put32(PERSISTENCE_VERSION, Put64(p.epoch, Put64(p.nextSequence, Put64(p.nextDispatch, rest)))))
  }

  function GetPreamble(bs: seq<byte>): Result<Got<Preamble>> {
    var magic :- GetMagic(bs);
    var version := Get32(magic.rest);
    if version.Err? || version.value.value != PERSISTENCE_VERSION then Err(ERR_PERSISTENCE_VERSION) else
      var epoch :- Get64(version.value.rest);
      var next :- Get64(epoch.rest);
      var dispatch :- Get64(next.rest);
      Ok(Got(Preamble(epoch.value, next.value, dispatch.value), dispatch.rest))
  }

  lemma MoreMagic(q: seq<byte>)
    ensures forall b {:trigger GetMagic(b + q)} :: Same(GetMagic(b), GetMagic(b + q), q)
  {
    More(q);
  }

  lemma MorePreamble(q: seq<byte>)
    ensures forall b {:trigger GetPreamble(b + q)} :: Same(GetPreamble(b), GetPreamble(b + q), q)
  {
    More(q);
    MoreMagic(q);
  }

  // ---------------------------------------------------------------------------
  // Counted lists

  function PutMany<T>(put: (T, seq<byte>) -> seq<byte>, xs: seq<T>, rest: seq<byte>): seq<byte> {
    Put64(|xs|, PutAll(put, xs, rest))
  }

  function GetMany<T>(get: seq<byte> -> Result<Got<T>>, max: nat, bs: seq<byte>): Result<Got<seq<T>>> {
    var n :- Get64(bs);
    if n.value > max then Err(ERR_PERSISTENCE_INVALID_FIELD) else GetAll(get, n.value, n.rest)
  }

  /** As much of a counted list as can be read. */
  function ReadMany<T>(get: seq<byte> -> Result<Got<T>>, max: nat, bs: seq<byte>): Stretch<T> {
    match Get64(bs)
    case Err(e) => Stretch([], Err(e))
    case Ok(n) => if n.value > max then Stretch([], Err(ERR_PERSISTENCE_INVALID_FIELD))
      else ReadAll(get, n.value, n.rest)
  }

  lemma ManyOrNothing<T>(get: seq<byte> -> Result<Got<T>>, max: nat, bs: seq<byte>)
    ensures GetMany(get, max, bs) == Entire(ReadMany(get, max, bs))
  {
    if Get64(bs).Ok? {
      AllOrNothing(get, Get64(bs).value.value, Get64(bs).value.rest);
    }
  }

  lemma LosslessMany<T>(put: (T, seq<byte>) -> seq<byte>, get: seq<byte> -> Result<Got<T>>, max: nat, xs: seq<T>,
                        rest: seq<byte>)
    requires |xs| <= max && |xs| < TWO64 && forall x, r | x in xs :: get(put(x, r)) == Ok(Got(x, r))
    ensures GetMany(get, max, PutMany(put, xs, rest)) == Ok(Got(xs, rest))
  {
    LosslessAll(put, get, xs, rest);
  }

  lemma MoreMany<T>(get: seq<byte> -> Result<Got<T>>, max: nat, q: seq<byte>)
    requires Extensible(get)
    ensures forall b {:trigger GetMany(get, max, b + q)} :: Same(GetMany(get, max, b), GetMany(get, max, b + q), q)
  {
    forall b ensures Same(GetMany(get, max, b), GetMany(get, max, b + q), q) {
      More(q);
      if Get64(b).Ok? {
        MoreAll(get, Get64(b).value.value, Get64(b).value.rest, q);
      }
    }
  }

  // ---------------------------------------------------------------------------
  // The body

  /** Terminal records, grants and the receipt count. */
  datatype Closing = Closing(records: seq<Record>, grants: seq<F.GrantRecord>, receiptCount: nat)

  function PutClosing(c: Closing, rest: seq<byte>): seq<byte> {
    PutMany(PutRecord, c.records, PutMany(PutGrantRecord, c.grants, Put64(c.receiptCount, rest)))
  }

  /** Only the grant list has a limit of its own. */
  function GetClosing(bs: seq<byte>): Result<Got<Closing>> {
    var records :- GetMany(GetRecord, TWO64, bs);
    var grants :- GetMany(GetGrantRecord, MAX_GRANTS, records.rest);
    var count :- Get64(grants.rest);
    Ok(Got(Closing(records.value, grants.value, count.value), count.rest))
  }

  lemma MoreClosing(q: seq<byte>)
    ensures forall b {:trigger GetClosing(b + q)} :: Same(GetClosing(b), GetClosing(b + q), q)
  {
    MoreRecord();
    MoreGrantRecord();
    More(q);
    MoreMany(GetRecord, TWO64, q);
    MoreMany(GetGrantRecord, MAX_GRANTS, q);
  }

  function PutBody(l: Lists, rest: seq<byte>): seq<byte> {
    PutPreamble(Preamble(l.epoch, l.nextSequence, l.nextDispatch),
      PutMany(PutEntry, l.entries, PutClosing(Closing(l.records, l.grants, l.receiptCount), rest)))
  }

  function GetBody(bs: seq<byte>): Result<Got<Lists>> {
    var p :- GetPreamble(bs);
    GetLists(p.value, p.rest)
  }

  function GetLists(p: Preamble, bs: seq<byte>): Result<Got<Lists>> {
    var entries :- GetMany(GetEntry, TWO64, bs);
    var c :- GetClosing(entries.rest);
    Ok(Got(Lists(p.epoch, p.nextSequence, p.nextDispatch, entries.value, c.value.records, c.value.grants,
                 c.value.receiptCount), c.rest))
  }

  function WithEntries(p: Preamble, entries: seq<Entry>, c: Closing): Lists {
    Lists(p.epoch, p.nextSequence, p.nextDispatch, entries, c.records, c.grants, c.receiptCount)
  }

  /** The lists are read if and only if the entries and what closes them are. */
  lemma ListsSplit(p: Preamble, bs: seq<byte>)
    ensures var es := ReadMany(GetEntry, TWO64, bs);
      match es.end
      case Err(e) => GetLists(p, bs) == Err(e)
      case Ok(rest) =>
        match GetClosing(rest)
        case Err(e) => GetLists(p, bs) == Err(e)
        case Ok(c) => GetLists(p, bs) == Ok(Got(WithEntries(p, es.read, c.value), c.rest))
  {
    ManyOrNothing(GetEntry, TWO64, bs);
  }

  lemma LosslessEntries(xs: seq<Entry>, rest: seq<byte>)
    requires |xs| < TWO64 && forall e | e in xs :: FitsEntry(e)
    ensures GetMany(GetEntry, TWO64, PutMany(PutEntry, xs, rest)) == Ok(Got(xs, rest))
  {
    forall e, r | e in xs ensures GetEntry(PutEntry(e, r)) == Ok(Got(e, r)) {
      LosslessEntry(e, r);
    }
    LosslessMany(PutEntry, GetEntry, TWO64, xs, rest);
  }

  lemma LosslessRecords(xs: seq<Record>, rest: seq<byte>)
    requires |xs| < TWO64 && forall t | t in xs :: FitsRecord(t)
    ensures GetMany(GetRecord, TWO64, PutMany(PutRecord, xs, rest)) == Ok(Got(xs, rest))
  {
    LosslessMany(PutRecord, GetRecord, TWO64, xs, rest);
  }

  lemma LosslessGrants(xs: seq<F.GrantRecord>, rest: seq<byte>)
    requires |xs| <= MAX_GRANTS && forall g | g in xs :: FitsGrantRecord(g)
    ensures GetMany(GetGrantRecord, MAX_GRANTS, PutMany(PutGrantRecord, xs, rest)) == Ok(Got(xs, rest))
  {
    forall g, r | g in xs ensures GetGrantRecord(PutGrantRecord(g, r)) == Ok(Got(g, r)) {
      LosslessGrantRecord(g, r);
    }
    LosslessMany(PutGrantRecord, GetGrantRecord, MAX_GRANTS, xs, rest);
  }

  lemma LosslessClosing(c: Closing, rest: seq<byte>)
    requires |c.records| < TWO64 && |c.grants| <= MAX_GRANTS && c.receiptCount < TWO64
    requires (forall t | t in c.records :: FitsRecord(t)) && (forall g | g in c.grants :: FitsGrantRecord(g))
    ensures GetClosing(PutClosing(c, rest)) == Ok(Got(c, rest))
  {
    var tail := Put64(c.receiptCount, rest);
    LosslessGrants(c.grants, tail);
    LosslessRecords(c.records, PutMany(PutGrantRecord, c.grants, tail));
  }

  lemma LosslessBody(l: Lists, rest: seq<byte>)
    requires FitsLists(l)
    ensures GetBody(PutBody(l, rest)) == Ok(Got(l, rest))
  {
    var c := Closing(l.records, l.grants, l.receiptCount);
    LosslessClosing(c, rest);
    LosslessEntries(l.entries, PutClosing(c, rest));
    assert GetPreamble(PutBody(l, rest)).Ok?;
  }

  lemma MoreBody()
    ensures Extensible(GetBody)
  {
    MoreEntry();
    forall b, q ensures Same(GetBody(b), GetBody(b + q), q) {
      MorePreamble(q);
      MoreMany(GetEntry, TWO64, q);
      MoreClosing(q);
    }
  }

  // ---------------------------------------------------------------------------
  // Lists and maps

  /** Reading back keeps the first entry for a sequence. */
  function SeqsOf(entries: seq<Entry>): map<nat, R.SavedSequence> {
    if entries == [] then map[] else
      var front := SeqsOf(entries[..|entries| - 1]);
      var e := entries[|entries| - 1];
      if e.id in front then front else front[e.id := e.saved]
  }

  /** Reading back keeps the last record for a sequence. */
  function TerminalOf(records: seq<Record>): map<nat, SequenceState> {
    if records == [] then map[] else
      TerminalOf(records[..|records| - 1])[records[|records| - 1].id := records[|records| - 1].state]
  }

  /** The ledger is keyed by the grants' own ids. */
  function LedgerOf(grants: seq<F.GrantRecord>): map<nat, F.GrantRecord> {
    if grants == [] then map[] else
      LedgerOf(grants[..|grants| - 1])[grants[|grants| - 1].grant.grant := grants[|grants| - 1]]
  }

  function ImageFrom(l: Lists): R.Image {
    R.Image(l.epoch, l.nextSequence, l.nextDispatch, SeqsOf(l.entries), TerminalOf(l.records), LedgerOf(l.grants),
            l.receiptCount)
  }

  /** The orders in which the hash maps are iterated. */
  datatype Orders = Orders(seqs: seq<nat>, terminal: seq<nat>, ledger: seq<nat>)

  /** Every key, once. */
  predicate Enumerates(order: seq<nat>, keys: set<nat>) {
    && (forall k | k in order :: k in keys) && (forall k | k in keys :: k in order)
    && (forall i, j | 0 <= i < j < |order| :: order[i] != order[j])
  }

  predicate Covers(o: Orders, img: R.Image) {
    Enumerates(o.seqs, img.seqs.Keys) && Enumerates(o.terminal, img.terminal.Keys)
      && Enumerates(o.ledger, img.ledger.Keys)
  }

  function ListsOf(img: R.Image, o: Orders): Lists
    requires Covers(o, img)
  {
    Lists(img.epoch, img.nextSequence, img.nextDispatch,
          seq(|o.seqs|, i requires 0 <= i < |o.seqs| => Entry(o.seqs[i], img.seqs[o.seqs[i]])),
          seq(|o.terminal|, i requires 0 <= i < |o.terminal| => Record(o.terminal[i], img.terminal[o.terminal[i]])),
          seq(|o.ledger|, i requires 0 <= i < |o.ledger| => img.ledger[o.ledger[i]]),
          img.receiptCount)
  }

  lemma {:induction false} SeqsBack(entries: seq<Entry>)
    requires forall i, j | 0 <= i < j < |entries| :: entries[i].id != entries[j].id
    ensures forall k :: k in SeqsOf(entries) <==> exists i | 0 <= i < |entries| :: entries[i].id == k
    ensures forall i | 0 <= i < |entries| ::
      entries[i].id in SeqsOf(entries) && SeqsOf(entries)[entries[i].id] == entries[i].saved
  {
    if entries != [] {
      var front := entries[..|entries| - 1];
      SeqsBack(front);
      assert forall i | 0 <= i < |front| :: front[i] == entries[i];
    }
  }

  lemma {:induction false} TerminalBack(records: seq<Record>)
    requires forall i, j | 0 <= i < j < |records| :: records[i].id != records[j].id
    ensures forall k :: k in TerminalOf(records) <==> exists i | 0 <= i < |records| :: records[i].id == k
    ensures forall i | 0 <= i < |records| ::
      records[i].id in TerminalOf(records) && TerminalOf(records)[records[i].id] == records[i].state
  {
    if records != [] {
      var front := records[..|records| - 1];
      TerminalBack(front);
      assert forall i | 0 <= i < |front| :: front[i] == records[i];
    }
  }

  lemma {:induction false} LedgerBack(grants: seq<F.GrantRecord>)
    requires forall i, j | 0 <= i < j < |grants| :: grants[i].grant.grant != grants[j].grant.grant
    ensures forall k :: k in LedgerOf(grants) <==> exists i | 0 <= i < |grants| :: grants[i].grant.grant == k
    ensures forall i | 0 <= i < |grants| ::
      grants[i].grant.grant in LedgerOf(grants) && LedgerOf(grants)[grants[i].grant.grant] == grants[i]
  {
    if grants != [] {
      var front := grants[..|grants| - 1];
      LedgerBack(front);
      assert forall i | 0 <= i < |front| :: front[i] == grants[i];
    }
  }

  lemma SeqsReturn(img: R.Image, o: Orders)
    requires Covers(o, img)
    ensures SeqsOf(ListsOf(img, o).entries) == img.seqs
  {
    var es := ListsOf(img, o).entries;
    SeqsBack(es);
    forall k ensures k in SeqsOf(es) <==> k in img.seqs {
      if k in img.seqs {
        var i :| 0 <= i < |o.seqs| && o.seqs[i] == k;
        assert es[i].id == k;
      }
    }
    forall k | k in img.seqs ensures SeqsOf(es)[k] == img.seqs[k] {
      var i :| 0 <= i < |o.seqs| && o.seqs[i] == k;
      assert es[i].id == k;
    }
  }

  lemma TerminalReturns(img: R.Image, o: Orders)
    requires Covers(o, img)
    ensures TerminalOf(ListsOf(img, o).records) == img.terminal
  {
    var es := ListsOf(img, o).records;
    TerminalBack(es);
    forall k ensures k in TerminalOf(es) <==> k in img.terminal {
      if k in img.terminal {
        var i :| 0 <= i < |o.terminal| && o.terminal[i] == k;
        assert es[i].id == k;
      }
    }
    forall k | k in img.terminal ensures TerminalOf(es)[k] == img.terminal[k] {
      var i :| 0 <= i < |o.terminal| && o.terminal[i] == k;
      assert es[i].id == k;
    }
  }

  lemma LedgerReturns(img: R.Image, o: Orders)
    requires Covers(o, img) && forall k | k in img.ledger :: img.ledger[k].grant.grant == k
    ensures LedgerOf(ListsOf(img, o).grants) == img.ledger
  {
    var es := ListsOf(img, o).grants;
    assert forall i | 0 <= i < |es| :: es[i].grant.grant == o.ledger[i];
    LedgerBack(es);
    forall k ensures k in LedgerOf(es) <==> k in img.ledger {
      if k in img.ledger {
        var i :| 0 <= i < |o.ledger| && o.ledger[i] == k;
        assert es[i].grant.grant == k;
      }
    }
    forall k | k in img.ledger ensures LedgerOf(es)[k] == img.ledger[k] {
      var i :| 0 <= i < |o.ledger| && o.ledger[i] == k;
      assert es[i].grant.grant == k;
    }
  }

  // ---------------------------------------------------------------------------
  // Sealed snapshots

  function Serialize(l: Lists): seq<byte> {
    K.Sealed(K32.Bits, PutBody(l, []))
  }

  function Parse(bytes: seq<byte>): Result<Lists> {
    if |bytes| < 5 then Err(ERR_PERSISTENCE_TRUNCATED)
    else if !K.Accepts(K32.Bits, bytes) then Err(ERR_PERSISTENCE_CHECKSUM)
    else Message(GetBody(bytes))
  }

  lemma SealedParses(l: Lists)
    requires FitsLists(l)
    ensures Parse(Serialize(l)) == Ok(l)
  {
    var body := PutBody(l, []);
    LosslessBody(l, []);
    MoreBody();
    K32.BitsLawful();
    K.SealedAccepted(K32.Bits, body);
    Exact(GetBody, body, l, Serialize(l)[|body|..], []);
    assert Serialize(l) == body + Serialize(l)[|body|..];
  }

  // What is written of a ledger that is over the limit

  /** The grants that follow are too many. */
  lemma TooMany<T>(put: (T, seq<byte>) -> seq<byte>, get: seq<byte> -> Result<Got<T>>, max: nat, xs: seq<T>,
                   rest: seq<byte>, q: seq<byte>)
    requires max < |xs| < TWO64
    ensures ReadMany(get, max, PutMany(put, xs, rest) + q) == Stretch([], Err(ERR_PERSISTENCE_INVALID_FIELD))
  {
    More(q);
    assert Same(Get64(PutMany(put, xs, rest)), Get64(PutMany(put, xs, rest) + q), q);
  }

  /** The bytes after the preamble, after the entries and after the records. */
  function AfterRecords(l: Lists): seq<byte> {
    PutMany(PutGrantRecord, l.grants, Put64(l.receiptCount, []))
  }

  function AfterEntries(l: Lists): seq<byte> {
    PutMany(PutRecord, l.records, AfterRecords(l))
  }

  function AfterPreamble(l: Lists): seq<byte> {
    PutMany(PutEntry, l.entries, AfterEntries(l))
  }

  /** Everything before the grants is read as it was written, whatever follows. */
  lemma ReadUpTo(l: Lists, q: seq<byte>)
    requires InRange(l)
    ensures GetPreamble(PutBody(l, []) + q)
         == Ok(Got(Preamble(l.epoch, l.nextSequence, l.nextDispatch), AfterPreamble(l) + q))
    ensures GetMany(GetEntry, TWO64, AfterPreamble(l) + q) == Ok(Got(l.entries, AfterEntries(l) + q))
    ensures GetMany(GetRecord, TWO64, AfterEntries(l) + q) == Ok(Got(l.records, AfterRecords(l) + q))
  {
    MorePreamble(q);
    MoreEntry();
    MoreRecord();
    MoreMany(GetEntry, TWO64, q);
    MoreMany(GetRecord, TWO64, q);
    LosslessEntries(l.entries, AfterEntries(l));
    LosslessRecords(l.records, AfterRecords(l));
    assert GetPreamble(PutBody(l, [])) == Ok(Got(Preamble(l.epoch, l.nextSequence, l.nextDispatch), AfterPreamble(l)));
  }

  lemma OverfullBody(l: Lists, q: seq<byte>)
    requires InRange(l) && |l.grants| > MAX_GRANTS
    ensures ReadMany(GetGrantRecord, MAX_GRANTS, AfterRecords(l) + q) == Stretch([], Err(ERR_PERSISTENCE_INVALID_FIELD))
    ensures GetBody(PutBody(l, []) + q) == Err(ERR_PERSISTENCE_INVALID_FIELD)
  {
    ReadUpTo(l, q);
    TooMany(PutGrantRecord, GetGrantRecord, MAX_GRANTS, l.grants, Put64(l.receiptCount, []), q);
    ManyOrNothing(GetGrantRecord, MAX_GRANTS, AfterRecords(l) + q);
  }

  /** A snapshot whose numbers are in range is read back exactly when its ledger is within the limit. */
  lemma ParsesExactly(l: Lists)
    requires InRange(l)
    ensures Parse(Serialize(l)) == if |l.grants| <= MAX_GRANTS then Ok(l) else Err(ERR_PERSISTENCE_INVALID_FIELD)
  {
    if |l.grants| <= MAX_GRANTS {
      SealedParses(l);
    } else {
      var body := PutBody(l, []);
      K32.BitsLawful();
      K.SealedAccepted(K32.Bits, body);
      assert Serialize(l) == body + Serialize(l)[|body|..];
      OverfullBody(l, Serialize(l)[|body|..]);
    }
  }

  /** Every numeric field is in the range its type allows, and the ledger is within its limit. */
  predicate FitsImage(img: R.Image, o: Orders)
    requires Covers(o, img)
  {
    FitsLists(ListsOf(img, o))
  }

  lemma ImageReturns(img: R.Image, o: Orders)
    requires Covers(o, img) && forall k | k in img.ledger :: img.ledger[k].grant.grant == k
    ensures ImageFrom(ListsOf(img, o)) == img
  {
    SeqsReturn(img, o);
    TerminalReturns(img, o);
    LedgerReturns(img, o);
  }

  /** `f'` is `f` but for in-flight work put back and pending grants withdrawn. */
  ghost predicate Normalised(f: F.FabricState, f': F.FabricState) {
    && f'.epoch == f.epoch && f'.next.sequence == f.next.sequence && f'.next.dispatch == f.next.dispatch
    && f'.terminal == f.terminal && f'.stats.receiptCount == f.stats.receiptCount
    && f'.seqs.Keys == f.seqs.Keys && (forall id | id in f.seqs :: R.RecoveredFrom(f.seqs[id], f'.seqs[id]))
    && f'.ledger.Keys == f.ledger.Keys && (forall g | g in f.ledger :: f'.ledger[g] == R.Withdrawn(f.ledger[g]))
  }

  lemma RestoreNormalises(cfg: F.Config, f: F.FabricState, into: F.FabricState)
    requires FI.Inv(cfg, f)
    ensures Normalised(f, R.Restore(into, R.ImageOf(f)))
  {
    R.RestoreKeeps(cfg, f, into);
  }

  /**
   Recovery from the snapshot of a reachable fabric, whatever order its maps were written
   in, succeeds and gives back the persisted fields, with in-flight work put back, pending
   grants withdrawn and every committed token, digest and accepted record kept.
   */
  lemma SnapshotRoundTrip(cfg: F.Config, f: F.FabricState, o: Orders, into: F.FabricState)
    requires FI.Inv(cfg, f) && Covers(o, R.ImageOf(f)) && FitsImage(R.ImageOf(f), o)
    ensures var l := Parse(Serialize(ListsOf(R.ImageOf(f), o)));
      l.Ok? && ImageFrom(l.value) == R.ImageOf(f) && Normalised(f, R.Restore(into, ImageFrom(l.value)))
  {
    SealedParses(ListsOf(R.ImageOf(f), o));
    ImageReturns(R.ImageOf(f), o);
    RestoreNormalises(cfg, f, into);
  }

  /** Damage within four consecutive bytes of a snapshot is reported as a checksum mismatch. */
  lemma DamageRefused(l: Lists, p: seq<byte>, u: seq<byte>, v: seq<byte>, s: seq<byte>)
    requires Serialize(l) == p + u + s && |u| == |v| <= 4 && u != v
    ensures Parse(p + v + s) == Err(ERR_PERSISTENCE_CHECKSUM)
  {
    K32.BitsLawful();
    K.SealedAccepted(K32.Bits, PutBody(l, []));
    K32.BurstDetected(p, u, v, s);
  }
}
