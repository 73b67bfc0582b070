/** Where the fields of the messages of the commit protocol lie in their bytes. */
module Layout {
  import opened Types
  import opened Binary
  import opened Codec
  import FR = Frames

  /** The number in the `n` bytes from `at` on, least significant byte first. */
  function At(bs: seq<byte>, at: nat, n: nat): nat
    requires at + n <= |bs|
  {
    FR.ValueLE(n, bs[at..])
  }

  function Word(bs: seq<byte>, at: nat): nat
    requires at + 8 <= |bs|
  {
    At(bs, at, 8)
  }

  /** The same bytes as a two's-complement number. */
  function Signed(bs: seq<byte>, at: nat): int
    requires at + 8 <= |bs|
  {
    if Word(bs, at) < TWO63 then Word(bs, at) else Word(bs, at) - TWO64
  }

  lemma {:induction false} LongEnough(n: nat, bs: seq<byte>)
    ensures GetLE(n, bs).Ok? <==> n <= |bs|
  {
    if n > 0 && bs != [] {
      LongEnough(n - 1, bs[1..]);
    }
  }

  lemma Next(bs: seq<byte>, at: nat, n: nat)
    requires at <= |bs|
    ensures GetLE(n, bs[at..]).Ok? <==> at + n <= |bs|
    ensures at + n <= |bs| ==> GetLE(n, bs[at..]).value == Got(At(bs, at, n), bs[at + n..])
  {
    LongEnough(n, bs[at..]);
    if at + n <= |bs| {
      FR.GetLEValue(n, bs[at..]);
    }
  }

  /** A byte string from `at` on, its length first. */
  predicate BlobAt(bs: seq<byte>, at: nat, v: seq<byte>) {
    at + 8 + |v| <= |bs| && |v| == Word(bs, at) && v == bs[at + 8..at + 8 + |v|]
  }

  lemma BlobLies(bs: seq<byte>, at: nat)
    requires at <= |bs| && GetBlob(bs[at..]).Ok?
    ensures var got := GetBlob(bs[at..]).value; BlobAt(bs, at, got.value) && got.rest == bs[at + 8 + |got.value|..]
  {
    Next(bs, at, 8);
  }

  // ---------------------------------------------------------------------------
  // Identities

  predicate AuthorityAt(bs: seq<byte>, a: Authority) {
    && 64 <= |bs|
    && a.epoch == Word(bs, 0) && a.worker == Word(bs, 8) && a.workerBoot == Word(bs, 16)
    && a.sequence == Word(bs, 24) && a.state == Word(bs, 32) && a.attempt == Word(bs, 40)
    && a.generation == Word(bs, 48) && a.dispatch == Word(bs, 56)
  }

  lemma AuthorityLies(bs: seq<byte>)
    requires GetAuthority(bs).Ok?
    ensures var got := GetAuthority(bs).value; AuthorityAt(bs, got.value) && got.rest == bs[64..]
  {
    assert bs[0..] == bs;
    Next(bs, 0, 8);
    Next(bs, 8, 8);
    Next(bs, 16, 8);
    Next(bs, 24, 8);
    Next(bs, 32, 8);
    Next(bs, 40, 8);
    Next(bs, 48, 8);
    Next(bs, 56, 8);
  }

  predicate IdentityAt(bs: seq<byte>, a: Authority) {
    && 64 <= |bs|
    && a.sequence == Word(bs, 0) && a.state == Word(bs, 8) && a.attempt == Word(bs, 16)
    && a.generation == Word(bs, 24) && a.dispatch == Word(bs, 32) && a.epoch == Word(bs, 40)
    && a.worker == Word(bs, 48) && a.workerBoot == Word(bs, 56)
  }

  lemma IdentityLies(bs: seq<byte>)
    requires GetIdentity(bs).Ok?
    ensures var got := GetIdentity(bs).value; IdentityAt(bs, got.value) && got.rest == bs[64..]
  {
    assert bs[0..] == bs;
    Next(bs, 0, 8);
    Next(bs, 8, 8);
    Next(bs, 16, 8);
    Next(bs, 24, 8);
    Next(bs, 32, 8);
    Next(bs, 40, 8);
    Next(bs, 48, 8);
    Next(bs, 56, 8);
  }

  predicate DigestsAt(bs: seq<byte>, pre: nat, post: nat, delta: nat) {
    24 <= |bs| && pre == Word(bs, 0) && post == Word(bs, 8) && delta == Word(bs, 16)
  }

  lemma DigestsLie(bs: seq<byte>)
    requires GetDigests(bs).Ok?
    ensures var got := GetDigests(bs).value;
      DigestsAt(bs, got.value.pre, got.value.post, got.value.delta) && got.rest == bs[24..]
  {
    assert bs[0..] == bs;
    Next(bs, 0, 8);
    Next(bs, 8, 8);
    Next(bs, 16, 8);
  }

  predicate StepAt(bs: seq<byte>, kind: nat, terminal: bool, token: nat, activeNs: int) {
    && 14 <= |bs| && kind == At(bs, 0, 1) && (terminal <==> At(bs, 1, 1) != 0) && token == At(bs, 2, 4)
    && activeNs == Signed(bs, 6)
  }

  lemma StepLies(bs: seq<byte>)
    requires GetStep(bs).Ok?
    ensures var got := GetStep(bs).value;
      StepAt(bs, got.value.kind, got.value.terminal, got.value.token, got.value.activeNs) && got.rest == bs[14..]
  {
    assert bs[0..] == bs;
    Next(bs, 0, 1);
    Next(bs, 1, 1);
    Next(bs, 2, 4);
    Next(bs, 6, 8);
  }

  predicate HeaderAt(bs: seq<byte>, dispatch: nat, epoch: nat, worker: nat, boot: nat) {
    && 32 <= |bs| && dispatch == Word(bs, 0) && epoch == Word(bs, 8) && worker == Word(bs, 16)
    && boot == Word(bs, 24)
  }

  lemma HeaderLies(bs: seq<byte>)
    requires GetHeader(bs).Ok?
    ensures var h := GetHeader(bs).value;
      HeaderAt(bs, h.value.dispatch, h.value.epoch, h.value.worker, h.value.workerBoot) && h.rest == bs[32..]
  {
    assert bs[0..] == bs;
    Next(bs, 0, 8);
    Next(bs, 8, 8);
    Next(bs, 16, 8);
    Next(bs, 24, 8);
  }

  // ---------------------------------------------------------------------------
  // Grants, receipts and aborts

  predicate GrantAt(bs: seq<byte>, g: CommitGrant) {
    && 126 <= |bs|
    && g.grant == Word(bs, 0) && g.proposal == Word(bs, 8) && AuthorityAt(bs[16..], g.auth)
    && g.position == Word(bs, 80) && DigestsAt(bs[88..], g.pre, g.post, g.delta)
    && StepAt(bs[112..], g.kind, g.terminal, g.token, g.activeNs)
  }

  lemma GrantLies(bs: seq<byte>)
    requires GetGrant(bs).Ok?
    ensures GrantAt(bs, GetGrant(bs).value.value) && GetGrant(bs).value.rest == bs[126..]
  {
    assert bs[0..] == bs;
    Next(bs, 0, 8);
    Next(bs, 8, 8);
    AuthorityLies(bs[16..]);
    assert bs[16..][64..] == bs[80..];
    Next(bs, 80, 8);
    DigestsLie(bs[88..]);
    assert bs[88..][24..] == bs[112..];
    StepLies(bs[112..]);
    assert bs[112..][14..] == bs[126..];
  }

  /** The bytes of a grant. */
  lemma GrantLayout(g: CommitGrant)
    requires FitsGrant(g)
    ensures GrantAt(PutGrant(g, []), g) && |PutGrant(g, [])| == 126
  {
    GrantLies(PutGrant(g, []));
  }

  predicate AbortAt(bs: seq<byte>, a: AbortPrepared) {
    72 <= |bs| && a.proposal == Word(bs, 0) && IdentityAt(bs[8..], a.auth)
  }

  /** The bytes of an abort. */
  lemma AbortLayout(a: AbortPrepared)
    requires a.proposal < TWO64 && FitsAuthority(a.auth)
    ensures AbortAt(PutAbort(a, []), a) && |PutAbort(a, [])| == 72
  {
    var bs := PutAbort(a, []);
    assert bs[0..] == bs;
    Next(bs, 0, 8);
    IdentityLies(bs[8..]);
    assert bs[8..][64..] == bs[72..];
  }

  predicate ReceiptAt(bs: seq<byte>, r: MemberReceipt) {
    && 150 <= |bs|
    && r.receipt == Word(bs, 0) && r.grant == Word(bs, 8) && r.proposal == Word(bs, 16)
    && AuthorityAt(bs[24..], r.auth) && r.before == Word(bs, 88) && r.after == Word(bs, 96)
    && DigestsAt(bs[104..], r.pre, r.post, r.delta) && StepAt(bs[128..], r.kind, r.terminal, r.token, r.activeNs)
    && r.committedAt == Signed(bs, 142)
  }

  lemma ReceiptLies(bs: seq<byte>)
    requires GetReceipt(bs).Ok?
    ensures var got := GetReceipt(bs).value; ReceiptAt(bs, got.value) && got.rest == bs[150..]
  {
    assert bs[0..] == bs;
    Next(bs, 0, 8);
    Next(bs, 8, 8);
    Next(bs, 16, 8);
    AuthorityLies(bs[24..]);
    assert bs[24..][64..] == bs[88..];
    Next(bs, 88, 8);
    Next(bs, 96, 8);
    DigestsLie(bs[104..]);
    assert bs[104..][24..] == bs[128..];
    StepLies(bs[128..]);
    assert bs[128..][14..] == bs[142..];
    Next(bs, 142, 8);
  }

  /** Every record is followed by what it was put before, `size` bytes on. */
  ghost predicate Sized<T(!new)>(put: (T, seq<byte>) -> seq<byte>, size: nat, xs: seq<T>) {
    forall x, r | x in xs :: |put(x, r)| == size + |r| && put(x, r)[size..] == r
  }

  lemma Deeper(bs: seq<byte>, rest: seq<byte>, size: nat, i: nat)
    requires i > 0 && size <= |bs| && bs[size..] == rest && size * (i - 1) <= |rest|
    ensures size * i <= |bs| && bs[size * i..] == rest[size * (i - 1)..]
  {
    assert size * i == size + size * (i - 1);
  }

  /** Records of one size lie one after another. */
  lemma {:induction false} ListLies<T(!new)>(put: (T, seq<byte>) -> seq<byte>, size: nat, xs: seq<T>, i: nat)
    requires Sized(put, size, xs) && i < |xs|
    ensures var bs := PutAll(put, xs, []);
      size * i <= |bs| && bs[size * i..] == put(xs[i], PutAll(put, xs[i + 1..], []))
  {
    var bs, rest := PutAll(put, xs, []), PutAll(put, xs[1..], []);
    if i == 0 {
      assert bs[size * i..] == bs;
    } else {
      ListLies(put, size, xs[1..], i - 1);
      assert xs[0] in xs && xs[1..][i..] == xs[i + 1..];
      Deeper(bs, rest, size, i);
    }
  }

  lemma ReceiptPut(r: MemberReceipt, rest: seq<byte>)
    requires FitsReceipt(r)
    ensures var bs := PutReceipt(r, rest); ReceiptAt(bs, r) && |bs| == 150 + |rest| && bs[150..] == rest
  {
    ReceiptLies(PutReceipt(r, rest));
  }

  lemma ReceiptsSized(rs: seq<MemberReceipt>)
    requires forall r | r in rs :: FitsReceipt(r)
    ensures Sized(PutReceipt, 150, rs)
  {
    forall r, rest | r in rs
      ensures |PutReceipt(r, rest)| == 150 + |rest| && PutReceipt(r, rest)[150..] == rest
    {
      ReceiptPut(r, rest);
    }
  }

  lemma ReceiptsHead(p: ReceiptDecode)
    requires FitsReceipts(p)
    ensures var bs, t := PutReceipts(p, []), |p.groupErrorText|;
      && HeaderAt(bs, p.dispatch, p.epoch, p.worker, p.workerBoot) && 52 + t <= |bs|
      && p.groupError == At(bs, 32, 4) && BlobAt(bs, 36, p.groupErrorText) && |p.receipts| == Word(bs, 44 + t)
      && bs[52 + t..] == PutAll(PutReceipt, p.receipts, [])
  {
    var bs, t := PutReceipts(p, []), |p.groupErrorText|;
    HeaderLies(bs);
    Next(bs, 32, 4);
    BlobLies(bs, 36);
    Next(bs, 44 + t, 8);
  }

  /** The bytes of a list of receipts; each takes 150 of them. */
  lemma ReceiptsLayout(p: ReceiptDecode, i: nat)
    requires FitsReceipts(p) && i < |p.receipts|
    ensures var bs, t := PutReceipts(p, []), |p.groupErrorText|;
      52 + t + 150 * i <= |bs| && ReceiptAt(bs[52 + t + 150 * i..], p.receipts[i])
  {
    var bs, t := PutReceipts(p, []), |p.groupErrorText|;
    ReceiptsHead(p);
    ReceiptsSized(p.receipts);
    ListLies(PutReceipt, 150, p.receipts, i);
    ReceiptPut(p.receipts[i], PutAll(PutReceipt, p.receipts[i + 1..], []));
    assert bs[52 + t..][150 * i..] == bs[52 + t + 150 * i..];
  }

  // ---------------------------------------------------------------------------
  // Members of prepared results and of requests

  lemma ClocksLie(bs: seq<byte>)
    requires GetClocks(bs).Ok?
    ensures var got := GetClocks(bs).value;
      && 24 <= |bs| && got.rest == bs[24..]
      && got.value.started == Signed(bs, 0) && got.value.finished == Signed(bs, 8) && got.value.active == Signed(bs, 16)
  {
    assert bs[0..] == bs;
    Next(bs, 0, 8);
    Next(bs, 8, 8);
    Next(bs, 16, 8);
  }

  /** What follows the error text of an outcome. */
  datatype Tail = Tail(retryable: bool, clocks: Clocks, kvDelta: nat, kvAfter: nat, attempt: nat, generation: nat)

  function GetTail(b: seq<byte>): Result<Tail> {
    var retryable :- GetFlag(b);
    var clocks :- GetClocks(retryable.rest);
    var delta :- Get64(clocks.rest);
    var after :- Get64(delta.rest);
    var attempt :- Get64(after.rest);
    var generation :- Get64(attempt.rest);
    Ok(Tail(retryable.value, clocks.value, delta.value, after.value, attempt.value, generation.value))
  }

  predicate TailAt(b: seq<byte>, t: Tail) {
    && 57 <= |b| && (t.retryable <==> At(b, 0, 1) != 0) && t.clocks.started == Signed(b, 1)
    && t.clocks.finished == Signed(b, 9) && t.clocks.active == Signed(b, 17) && t.kvDelta == Word(b, 25)
    && t.kvAfter == Word(b, 33) && t.attempt == Word(b, 41) && t.generation == Word(b, 49)
  }

  lemma TailLies(b: seq<byte>)
    requires GetTail(b).Ok?
    ensures TailAt(b, GetTail(b).value)
  {
    assert b[0..] == b;
    Next(b, 0, 1);
    ClocksLie(b[1..]);
    assert b[1..][8..] == b[9..] && b[1..][16..] == b[17..] && b[1..][24..] == b[25..] && b[1..][0..] == b[1..];
    Next(b, 25, 8);
    Next(b, 33, 8);
    Next(b, 41, 8);
    Next(b, 49, 8);
  }

  predicate OutcomeAt(bs: seq<byte>, o: MemberOutcome) {
    && 38 + |o.errorText| <= |bs|
    && o.sequence == Word(bs, 0) && o.kind == At(bs, 8, 1) && o.generated == Word(bs, 9) && o.token == Word(bs, 17)
    && (o.terminal <==> At(bs, 25, 1) != 0) && o.errorCode == At(bs, 26, 4) && BlobAt(bs, 30, o.errorText)
    && TailAt(bs[38 + |o.errorText|..], Tail(o.retryable, Clocks(o.startedAt, o.finishedAt, o.activeNs), o.kvDelta,
      o.kvAfter, o.attempt, o.generation))
  }

  lemma OutcomeHead(bs: seq<byte>) returns (o: MemberOutcome, text: Got<seq<byte>>)
    requires GetOutcome(bs).Ok?
    ensures o == GetOutcome(bs).value.value && 30 <= |bs|
    ensures o.sequence == Word(bs, 0) && o.kind == At(bs, 8, 1) && o.generated == Word(bs, 9) && o.token == Word(bs, 17)
      && (o.terminal <==> At(bs, 25, 1) != 0) && o.errorCode == At(bs, 26, 4)
    ensures GetBlob(bs[30..]) == Ok(text) && text.value == o.errorText
    ensures GetTail(text.rest) == Ok(Tail(o.retryable, Clocks(o.startedAt, o.finishedAt, o.activeNs),
      o.kvDelta, o.kvAfter, o.attempt, o.generation))
  {
    o := GetOutcome(bs).value.value;
    assert bs[0..] == bs;
    Next(bs, 0, 8);
    Next(bs, 8, 1);
    Next(bs, 9, 8);
    Next(bs, 17, 8);
    Next(bs, 25, 1);
    Next(bs, 26, 4);
    text := GetBlob(bs[30..]).value;
  }

  lemma OutcomeLies(bs: seq<byte>)
    requires GetOutcome(bs).Ok?
    ensures OutcomeAt(bs, GetOutcome(bs).value.value)
  {
    var o, text := OutcomeHead(bs);
    BlobLies(bs, 30);
    TailLies(bs[38 + |o.errorText|..]);
  }

  predicate PreparedAt(bs: seq<byte>, p: PreparedMember) {
    && 120 <= |bs| && IdentityAt(bs, p.auth) && p.proposal == Word(bs, 64)
    && DigestsAt(bs[72..], p.pre, p.post, p.delta) && p.before == Word(bs, 96) && p.after == Word(bs, 104)
    && p.activeNs == Signed(bs, 112) && OutcomeAt(bs[120..], p.outcome)
  }

  lemma PreparedLies(bs: seq<byte>)
    requires GetPreparedMember(bs).Ok?
    ensures PreparedAt(bs, GetPreparedMember(bs).value.value)
  {
    IdentityLies(bs);
    Next(bs, 64, 8);
    DigestsLie(bs[72..]);
    assert bs[72..][24..] == bs[96..];
    Next(bs, 96, 8);
    Next(bs, 104, 8);
    Next(bs, 112, 8);
    OutcomeLies(bs[120..]);
  }

  /** The bytes of a prepared member. */
  lemma PreparedLayout(p: PreparedMember, rest: seq<byte>)
    requires FitsPreparedMember(p)
    ensures PreparedAt(PutPreparedMember(p, rest), p)
  {
    PreparedLies(PutPreparedMember(p, rest));
  }

  predicate StateAt(bs: seq<byte>, s: StateDescriptor) {
    && 56 <= |bs| && s.id == Word(bs, 0) && s.generation == Word(bs, 8) && s.device == Word(bs, 16)
    && s.bytesHeld == Word(bs, 24) && s.estimatedGrowth == Word(bs, 32) && s.ownerTag == Word(bs, 40)
    && s.accessVersion == Word(bs, 48)
  }

  lemma StateLies(bs: seq<byte>)
    requires GetState(bs).Ok?
    ensures StateAt(bs, GetState(bs).value.value) && GetState(bs).value.rest == bs[56..]
  {
    assert bs[0..] == bs;
    Next(bs, 0, 8);
    Next(bs, 8, 8);
    Next(bs, 16, 8);
    Next(bs, 24, 8);
    Next(bs, 32, 8);
    Next(bs, 40, 8);
    Next(bs, 48, 8);
  }

  /** The bytes of a member of a request. */
  lemma MemberLayout(m: MemberSpec, rest: seq<byte>)
    requires FitsMember(m)
    ensures var bs := PutMember(m, rest);
      && 104 <= |bs| && m.sequence == Word(bs, 0) && m.attempt == Word(bs, 8) && m.generation == Word(bs, 16)
      && StateAt(bs[24..], m.state) && m.currentLength == Word(bs, 80) && m.generatedTokens == Word(bs, 88)
      && m.remainingBudget == Word(bs, 96) && BlobAt(bs, 104, m.payload)
  {
    var bs := PutMember(m, rest);
    assert bs[0..] == bs;
    Next(bs, 0, 8);
    Next(bs, 8, 8);
    Next(bs, 16, 8);
    StateLies(bs[24..]);
    assert bs[24..][56..] == bs[80..];
    Next(bs, 80, 8);
    Next(bs, 88, 8);
    Next(bs, 96, 8);
    BlobLies(bs, 104);
  }

  /** A list that says it has more than 2^18 records is refused, whatever follows. */
  lemma ListRefused<T>(get: seq<byte> -> Result<Got<T>>, bs: seq<byte>)
    requires 8 <= |bs| && Word(bs, 0) > 0x4_0000
    ensures GetList(get, bs) == Err(95)
  {
    assert bs[0..] == bs;
    Next(bs, 0, 8);
  }

  // ---------------------------------------------------------------------------
  // The heads of prepared results and of requests

  /** The bytes of a prepared result before its members. */
  lemma PreparedHead(p: PreparedDecode)
    requires FitsPrepared(p)
    ensures var bs, t := PutPrepared(p, []), |p.groupErrorText|;
      && HeaderAt(bs, p.dispatch, p.epoch, p.worker, p.workerBoot) && 60 + t <= |bs|
      && p.activeNs == Signed(bs, 32) && p.groupError == At(bs, 40, 4) && BlobAt(bs, 44, p.groupErrorText)
      && |p.members| == Word(bs, 52 + t) && bs[60 + t..] == PutAll(PutPreparedMember, p.members, [])
  {
    var bs, t := PutPrepared(p, []), |p.groupErrorText|;
    HeaderLies(bs);
    Next(bs, 32, 8);
    Next(bs, 40, 4);
    BlobLies(bs, 44);
    Next(bs, 52 + t, 8);
  }

  predicate KeyAt(bs: seq<byte>, k: CompatibilityKey) {
    && 50 <= |bs| && k.model == Word(bs, 0) && k.revision == Word(bs, 8) && k.adapter == Word(bs, 16)
    && k.backend == At(bs, 24, 1) && k.device == Word(bs, 25) && k.dtype == At(bs, 33, 1)
    && k.tensorLayout == At(bs, 34, 4) && k.kvRepresentation == At(bs, 38, 4)
    && k.sequenceRequirements == At(bs, 42, 4) && k.operatorPolicy == At(bs, 46, 4)
  }

  lemma KeyLies(bs: seq<byte>)
    requires GetKey(bs).Ok?
    ensures KeyAt(bs, GetKey(bs).value.value) && GetKey(bs).value.rest == bs[50..]
  {
    assert bs[0..] == bs;
    Next(bs, 0, 8);
    Next(bs, 8, 8);
    Next(bs, 16, 8);
    Next(bs, 24, 1);
    Next(bs, 25, 8);
    Next(bs, 33, 1);
    Next(bs, 34, 4);
    Next(bs, 38, 4);
    Next(bs, 42, 4);
    Next(bs, 46, 4);
  }

  predicate DeviceAt(bs: seq<byte>, d: DeviceDescriptor) {
    && 17 + |d.name| <= |bs| && d.id == Word(bs, 0) && d.backend == At(bs, 8, 1) && BlobAt(bs, 9, d.name)
    && var b := bs[17 + |d.name|..];
    && 24 <= |b| && d.computeMajor == At(b, 0, 4) && d.computeMinor == At(b, 4, 4) && d.memoryBytes == Word(b, 8)
    && d.supportedDtypes == At(b, 16, 4) && d.maxGroups == At(b, 20, 4)
  }

  lemma DeviceLies(bs: seq<byte>)
    requires GetDevice(bs).Ok?
    ensures DeviceAt(bs, GetDevice(bs).value.value)
  {
    assert bs[0..] == bs;
    Next(bs, 0, 8);
    Next(bs, 8, 1);
    BlobLies(bs, 9);
    var b := bs[17 + |GetDevice(bs).value.value.name|..];
    assert b[0..] == b;
    Next(b, 0, 4);
    Next(b, 4, 4);
    Next(b, 8, 8);
    Next(b, 16, 4);
    Next(b, 20, 4);
  }

  predicate PlacementAt(bs: seq<byte>, p: Placement) {
    && HeaderAt(bs, p.header.dispatch, p.header.epoch, p.header.worker, p.header.workerBoot)
    && 90 <= |bs| && p.reservation == Word(bs, 32) && KeyAt(bs[40..], p.key) && DeviceAt(bs[90..], p.device)
  }

  lemma PlacementLies(bs: seq<byte>)
    requires GetPlacement(bs).Ok?
    ensures PlacementAt(bs, GetPlacement(bs).value.value)
  {
    HeaderLies(bs);
    Next(bs, 32, 8);
    KeyLies(bs[40..]);
    assert bs[40..][50..] == bs[90..];
    DeviceLies(bs[90..]);
  }

  /** The bytes of a request before its members. */
  lemma RequestHead(q: ExecutionRequest)
    requires FitsRequest(q)
    ensures PlacementAt(PutRequest(q, []),
      Placement(Header(q.dispatch, q.epoch, q.worker, q.workerBoot), q.reservation, q.key, q.device))
  {
    PlacementLies(PutRequest(q, []));
  }
}
