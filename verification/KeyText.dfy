/** The textual form of a compatibility key, which is what groups are indexed by. */
module KeyText {
  import opened Types
  import G = Grouping
  import GP = GroupingProofs

  function Digit(d: nat): char
    requires d < 10
  {
    '0' + d as char
  }

  function Decimal(v: nat): string {
    if v < 10 then [Digit(v)] else Decimal(v / 10) + [Digit(v % 10)]
  }

  function Pow10(n: nat): nat {
    if n == 0 then 1 else 10 * Pow10(n - 1)
  }

  /** A 64-bit number has at most twenty digits. */
  lemma TwentyDigits()
    ensures TWO64 <= Pow10(20)
  {
    assert Pow10(4) == 10000;
    assert Pow10(8) == 10000 * Pow10(4);
    assert Pow10(12) == 10000 * Pow10(8);
    assert Pow10(16) == 10000 * Pow10(12);
    assert Pow10(20) == 10000 * Pow10(16);
  }

  lemma OneDigitLess(v: nat, n: nat)
    requires 0 < v < Pow10(n)
    ensures n > 0 && v / 10 < Pow10(n - 1)
  {
  }

  function Reversed(s: seq<char>): seq<char> {
    if s == [] then [] else Reversed(s[1..]) + [s[0]]
  }

  /** Puts the digits of a number into a 24-character buffer, last digit first. */
  method ProduceDigits(v: nat) returns (tmp: array<char>, t: nat)
    requires v < TWO64
    ensures tmp.Length == 24 && t <= 20 && Reversed(tmp[..t]) == Leading(v)
  {
    tmp := new char[24](_ => '0');
    var rest: nat := v;
    t := 0;
    TwentyDigits();
    while rest > 0
      invariant 0 <= t <= 20 && rest < Pow10(20 - t) && tmp.Length == 24
      invariant Leading(rest) + Reversed(tmp[..t]) == Leading(v)
    {
      LeadingStep(rest, tmp[..t]);
      OneDigitLess(rest, 20 - t);
      tmp[t] := Digit(rest % 10);
      assert tmp[..t + 1] == tmp[..t] + [Digit(rest % 10)];
      rest := rest / 10;
      t := t + 1;
    }
  }

  /** Appends a 64-bit number in decimal. */
  method AppendU64(s: string, v: nat) returns (r: string)
    requires v < TWO64
    ensures r == s + Decimal(v)
  {
    if v == 0 {
      return s + "0";
    }
    var tmp, i := ProduceDigits(v);
    r := s;
    while i > 0
      invariant 0 <= i <= 20
      invariant r + Reversed(tmp[..i]) == s + Decimal(v)
    {
      i := i - 1;
      assert tmp[..i + 1] == tmp[..i] + [tmp[i]];
      ReversedSnoc(tmp[..i], tmp[i]);
      assert r + ([tmp[i]] + Reversed(tmp[..i])) == r + [tmp[i]] + Reversed(tmp[..i]);
      r := r + [tmp[i]];
    }
  }

  /** The digits still to be produced. */
  function Leading(rest: nat): string {
    if rest == 0 then [] else Decimal(rest)
  }

  lemma LeadingStep(rest: nat, done: string)
    requires rest > 0
    ensures Leading(rest) + Reversed(done) == Leading(rest / 10) + Reversed(done + [Digit(rest % 10)])
  {
    ReversedSnoc(done, Digit(rest % 10));
    LeadingSplits(rest);
    Regroup(Leading(rest / 10), Digit(rest % 10), Reversed(done));
  }

  lemma LeadingSplits(rest: nat)
    requires rest > 0
    ensures Leading(rest) == Leading(rest / 10) + [Digit(rest % 10)]
  {
    if rest < 10 {
      assert rest / 10 == 0 && rest % 10 == rest;
    }
  }

  lemma Regroup(a: string, c: char, b: string)
    ensures (a + [c]) + b == a + ([c] + b)
  {
  }

  lemma {:induction false} ReversedSnoc(s: seq<char>, c: char)
    ensures Reversed(s + [c]) == [c] + Reversed(s)
  {
    if s != [] {
      ReversedSnoc(s[1..], c);
      assert (s + [c])[1..] == s[1..] + [c];
    }
  }

  function BackendName(code: nat): string {
    if code == 0 then "cpu" else if code == 1 then "cuda" else "unknown_backend"
  }

  function DTypeName(code: nat): string {
    if code == 0 then "invalid" else if code == 1 then "f32" else if code == 2 then "f16"
    else if code == 3 then "bf16" else if code == 4 then "f64" else if code == 5 then "i32"
    else if code == 6 then "i64" else if code == 7 then "u8" else "unknown_dtype"
  }

  datatype Field = Field(name: string, value: string)

  function Fields(k: CompatibilityKey): seq<Field> {
    Model(k) + (Place(k) + Tags(k))
  }

  function Model(k: CompatibilityKey): seq<Field> {
    [Field("model=", Decimal(k.model)), Field(":rev=", Decimal(k.revision)), Field(":adapter=", Decimal(k.adapter))]
  }

  function Place(k: CompatibilityKey): seq<Field> {
    [Field(":backend=", BackendName(k.backend)), Field(":device=", Decimal(k.device)),
      Field(":dtype=", DTypeName(k.dtype))]
  }

  function Tags(k: CompatibilityKey): seq<Field> {
    [Field(":layout=", Decimal(k.tensorLayout)), Field(":kv=", Decimal(k.kvRepresentation)),
     Field(":seq=", Decimal(k.sequenceRequirements)), Field(":op=", Decimal(k.operatorPolicy))]
  }

  function Render(fs: seq<Field>): string {
    if fs == [] then "" else fs[0].name + (fs[0].value + Render(fs[1..]))
  }

  function KeyText(k: CompatibilityKey): string {
    Render(Fields(k))
  }

  predicate Fits(k: CompatibilityKey) {
    && k.model < TWO64 && k.revision < TWO64 && k.adapter < TWO64 && k.device < TWO64 && k.tensorLayout < TWO64
    && k.kvRepresentation < TWO64 && k.sequenceRequirements < TWO64 && k.operatorPolicy < TWO64
  }

  function RenderOnto(s: string, fs: seq<Field>): string {
    s + Render(fs)
  }

  /** Appends one field; what is still to come follows it. */
  method AppendField(s: string, ghost fs: seq<Field>, name: string, value: string) returns (r: string)
    requires fs != [] && fs[0] == Field(name, value)
    ensures RenderOnto(r, fs[1..]) == RenderOnto(s, fs)
  {
    r := s + name + value;
    assert s + (name + (value + Render(fs[1..]))) == r + Render(fs[1..]);
  }

  method AppendNumber(s: string, ghost fs: seq<Field>, name: string, v: nat) returns (r: string)
    requires fs != [] && v < TWO64 && fs[0] == Field(name, Decimal(v))
    ensures RenderOnto(r, fs[1..]) == RenderOnto(s, fs)
  {
    r := AppendU64(s + name, v);
    assert s + (name + (Decimal(v) + Render(fs[1..]))) == r + Render(fs[1..]);
  }

  method ToString(k: CompatibilityKey) returns (s: string)
    requires Fits(k)
    ensures s == KeyText(k)
  {
    ghost var fs := Fields(k);
    s := AppendNumber("", fs, "model=", k.model);
    s := AppendNumber(s, fs[1..], ":rev=", k.revision);
    s := AppendNumber(s, fs[1..][1..], ":adapter=", k.adapter);
    assert fs[1..][1..][1..] == Place(k) + Tags(k);
    s := AppendTail(s, k, fs[1..][1..][1..]);
    assert RenderOnto("", fs) == Render(fs);
  }

  method AppendTail(start: string, k: CompatibilityKey, ghost fs: seq<Field>) returns (s: string)
    requires Fits(k) && fs == Place(k) + Tags(k)
    ensures s == RenderOnto(start, fs)
  {
    s := AppendField(start, fs, ":backend=", BackendName(k.backend));
    s := AppendNumber(s, fs[1..], ":device=", k.device);
    s := AppendField(s, fs[1..][1..], ":dtype=", DTypeName(k.dtype));
    assert fs[1..][1..][1..] == Tags(k);
    s := AppendTags(s, k, fs[1..][1..][1..]);
  }

  method AppendTags(start: string, k: CompatibilityKey, ghost fs: seq<Field>) returns (s: string)
    requires Fits(k) && fs == Tags(k)
    ensures s == RenderOnto(start, fs)
  {
    s := AppendNumber(start, fs, ":layout=", k.tensorLayout);
    s := AppendNumber(s, fs[1..], ":kv=", k.kvRepresentation);
    s := AppendNumber(s, fs[1..][1..], ":seq=", k.sequenceRequirements);
    s := AppendNumber(s, fs[1..][1..][1..], ":op=", k.operatorPolicy);
    assert RenderOnto(s, []) == s;
  }

  // ---------------------------------------------------------------------------
  // Which keys share a text

  lemma {:induction false} DecimalPlain(v: nat)
    ensures ':' !in Decimal(v) && Decimal(v) != []
  {
    if v >= 10 {
      DecimalPlain(v / 10);
    }
  }

  lemma {:induction false} DecimalInjective(v: nat, w: nat)
    requires Decimal(v) == Decimal(w)
    ensures v == w
  {
    if v >= 10 {
      DecimalPlain(v / 10);
    }
    if w >= 10 {
      DecimalPlain(w / 10);
    }
    var n := |Decimal(v)| - 1;
    assert Decimal(v)[n] == Digit(v % 10) && Decimal(w)[n] == Digit(w % 10);
    if v >= 10 && w >= 10 {
      assert Decimal(v)[..n] == Decimal(v / 10) && Decimal(w)[..n] == Decimal(w / 10);
      DecimalInjective(v / 10, w / 10);
    }
  }

  lemma Longer(a: string, x: string, b: string, y: string)
    requires ':' !in b && (x == [] || x[0] == ':') && |a| < |b|
    ensures a + x != b + y
  {
    assert x != [] ==> (a + x)[|a|] == ':';
    assert (b + y)[|a|] == b[|a|];
  }

  /** A text up to the first colon is determined by the whole. */
  lemma CutAtColon(a: string, x: string, b: string, y: string)
    requires ':' !in a && ':' !in b && (x == [] || x[0] == ':') && (y == [] || y[0] == ':')
    requires a + x == b + y
    ensures a == b && x == y
  {
    if |a| < |b| {
      Longer(a, x, b, y);
    } else if |b| < |a| {
      Longer(b, y, a, x);
    }
    assert a == (a + x)[..|a|] && b == (b + y)[..|b|];
    assert x == (a + x)[|a|..] && y == (b + y)[|b|..];
  }

  predicate Separable(fs: seq<Field>) {
    && (forall i | 0 <= i < |fs| :: ':' !in fs[i].value)
    && (forall i | 0 < i < |fs| :: fs[i].name != [] && fs[i].name[0] == ':')
  }

  lemma {:induction false} RenderInjective(fs: seq<Field>, gs: seq<Field>)
    requires |fs| == |gs| && Separable(fs) && Separable(gs)
    requires forall i | 0 <= i < |fs| :: fs[i].name == gs[i].name
    requires Render(fs) == Render(gs)
    ensures fs == gs
  {
    if fs != [] {
      var l := fs[0].name;
      var x, y := Render(fs[1..]), Render(gs[1..]);
      assert fs[0].value + x == Render(fs)[|l|..];
      assert gs[0].value + y == Render(gs)[|l|..];
      CutAtColon(fs[0].value, x, gs[0].value, y);
      RenderInjective(fs[1..], gs[1..]);
      assert fs == [fs[0]] + fs[1..] && gs == [gs[0]] + gs[1..];
    }
  }

  lemma NamesPlain(k: CompatibilityKey)
    ensures ':' !in BackendName(k.backend) && ':' !in DTypeName(k.dtype)
  {
  }

  lemma FieldsSeparable(k: CompatibilityKey)
    ensures Separable(Fields(k))
  {
    NamesPlain(k);
    DecimalPlain(k.model);
    DecimalPlain(k.revision);
    DecimalPlain(k.adapter);
    DecimalPlain(k.device);
    DecimalPlain(k.tensorLayout);
    DecimalPlain(k.kvRepresentation);
    DecimalPlain(k.sequenceRequirements);
    DecimalPlain(k.operatorPolicy);
  }

  /** Equal but for backends that have no name and dtypes that have no name. */
  predicate SameText(a: CompatibilityKey, b: CompatibilityKey) {
    && a.(backend := b.backend, dtype := b.dtype) == b
    && (a.backend == b.backend || (a.backend >= 2 && b.backend >= 2))
    && (a.dtype == b.dtype || (a.dtype >= 8 && b.dtype >= 8))
  }

  lemma NamesDiffer(a: CompatibilityKey, b: CompatibilityKey)
    ensures BackendName(a.backend) == BackendName(b.backend) ==>
      a.backend == b.backend || (a.backend >= 2 && b.backend >= 2)
    ensures DTypeName(a.dtype) == DTypeName(b.dtype) ==> a.dtype == b.dtype || (a.dtype >= 8 && b.dtype >= 8)
  {
    var d, e := DTypeName(a.dtype), DTypeName(b.dtype);
    assert d == e ==> |d| == |e| && (|d| > 0 ==> d[0] == e[0]) && (|d| > 1 ==> d[1] == e[1]);
  }

  /** Two keys have the same text exactly when they differ at most in codes without a name. */
  lemma TextsMeet(a: CompatibilityKey, b: CompatibilityKey)
    ensures KeyText(a) == KeyText(b) <==> SameText(a, b)
  {
    if KeyText(a) == KeyText(b) {
      FieldsSeparable(a);
      FieldsSeparable(b);
      RenderInjective(Fields(a), Fields(b));
      FieldsMeet(a, b);
    }
  }

  lemma FieldsMeet(a: CompatibilityKey, b: CompatibilityKey)
    requires Fields(a) == Fields(b)
    ensures SameText(a, b)
  {
    var x, y := Fields(a), Fields(b);
    assert x[0] == y[0] && x[1] == y[1] && x[2] == y[2] && x[3] == y[3] && x[4] == y[4];
    assert x[5] == y[5] && x[6] == y[6] && x[7] == y[7] && x[8] == y[8] && x[9] == y[9];
    DecimalInjective(a.model, b.model);
    DecimalInjective(a.revision, b.revision);
    DecimalInjective(a.adapter, b.adapter);
    DecimalInjective(a.device, b.device);
    DecimalInjective(a.tensorLayout, b.tensorLayout);
    DecimalInjective(a.kvRepresentation, b.kvRepresentation);
    DecimalInjective(a.sequenceRequirements, b.sequenceRequirements);
    DecimalInjective(a.operatorPolicy, b.operatorPolicy);
    NamesDiffer(a, b);
  }

  // ---------------------------------------------------------------------------
  // Groups under full key equality

  /** Backend and dtype are codes that have a name. */
  predicate Named(k: CompatibilityKey) {
    k.backend < 2 && k.dtype < 8
  }

  /** A group mixes keys only in codes without a name; with named codes all its members have one key. */
  lemma GroupsHomogeneous(lim: G.GroupLimits, cs: seq<G.Candidate>, g: G.Group, m: G.Candidate)
    requires GP.Distinct(cs) && g in G.FormGroups(lim, KeyText, cs) && m in g.members
    ensures SameText(m.key, g.key)
    ensures Named(m.key) ==> m.key == g.key
  {
    GP.GroupFormation(lim, KeyText, cs);
    assert GP.GroupOk(lim, KeyText, g);
    TextsMeet(m.key, g.key);
  }

  /** Two candidates whose keys share a text end up in one group under the key of the first. */
  lemma MixedGroup(lim: G.GroupLimits, a: G.Candidate, b: G.Candidate)
    requires lim == G.GroupLimits(8, 0, G.BULK) && G.Precedes(a, b) && SameText(a.key, b.key)
    ensures G.FormGroups(lim, KeyText, [a, b]) == [G.Group(a.key, [a, b])]
  {
    TextsMeet(a.key, b.key);
    GP.PairGroup(lim, KeyText, a, b);
  }
}
