/** What a decision says that neither annotator said. */
module NovelDecisions {
  import opened Options
  import opened Evidence
  import opened DecisionKeys
  import opened Sets
  import V = EvidenceCoverage

  /** The annotation gives the unit this value. */
  ghost predicate Says(ss: seq<AnnotatedSentence>, u: Unit, v: Label) {
    match u
    case OfSentence(id, f) =>
      exists i :: 0 <= i < |ss| && ss[i].sentenceId == id && SentenceValue(ss[i], f) == v
    case OfToken(id, t, f) =>
      exists i, k :: 0 <= i < |ss| && 0 <= k < |ss[i].tokens| && ss[i].sentenceId == id
                     && ss[i].tokens[k].tokenId == t && TokenValue(ss[i].tokens[k], f) == v
  }

  // ---- The units in the order in which the map takes them

  datatype Entry = Entry(unit: Unit, value: Label)

  function TokenEntry(id: string, t: AnnotatedToken, f: TokenField): Entry {
    Entry(OfToken(id, t.tokenId, f), TokenValue(t, f))
  }

  const TOKEN_FIELDS: seq<TokenField> :=
    [UniversalPartOfSpeech, HeadTokenId, DependencyRelation, IrabHeadTokenId, IrabCategory, IrabNotApplicable]

  function TokenEntries(id: string, t: AnnotatedToken): (es: seq<Entry>)
    ensures |es| == 6
  {
    seq(|TOKEN_FIELDS|, i requires 0 <= i < |TOKEN_FIELDS| => TokenEntry(id, t, TOKEN_FIELDS[i]))
  }

  function TokensEntries(id: string, ts: seq<AnnotatedToken>): seq<Entry> {
    if |ts| == 0 then [] else TokenEntries(id, ts[0]) + TokensEntries(id, ts[1..])
  }

  function SentenceEntry(s: AnnotatedSentence, f: SentenceField): Entry {
    Entry(OfSentence(s.sentenceId, f), SentenceValue(s, f))
  }

  function SentenceEntries(s: AnnotatedSentence): seq<Entry> {
    [SentenceEntry(s, StructurallyAcceptable), SentenceEntry(s, CompletePredicate)]
    + TokensEntries(s.sentenceId, s.tokens)
  }

  function Entries(ss: seq<AnnotatedSentence>): seq<Entry> {
    if |ss| == 0 then [] else SentenceEntries(ss[0]) + Entries(ss[1..])
  }

  ghost predicate DistinctUnits(es: seq<Entry>) {
    forall i, k :: 0 <= i < k < |es| ==> es[i].unit != es[k].unit
  }

  /** The map holds the values of the units under their keys, and nothing else. */
  ghost predicate Recorded(m: map<string, Label>, es: seq<Entry>) {
    && (forall e :: e in es ==> KeyOf(e.unit) in m && m[KeyOf(e.unit)] == e.value)
    && (forall key :: key in m ==> exists e :: e in es && KeyOf(e.unit) == key)
  }

  lemma DistinctPrefix(a: seq<Entry>, b: seq<Entry>)
    requires DistinctUnits(a + b)
    ensures DistinctUnits(a)
  {
    assert forall i :: 0 <= i < |a| ==> (a + b)[i] == a[i];
  }

  /** A key that is taken belongs to a unit already seen: no key serves two units. */
  lemma KeyIsTaken(m: map<string, Label>, done: seq<Entry>, e: Entry)
    requires Recorded(m, done) && DistinctUnits(done)
    ensures KeyOf(e.unit) in m <==> !DistinctUnits(done + [e])
  {
    if KeyOf(e.unit) in m {
      var d :| d in done && KeyOf(d.unit) == KeyOf(e.unit);
      KeysNeverCollide(d.unit, e.unit);
      var i :| 0 <= i < |done| && done[i] == d;
      assert (done + [e])[i] == d && (done + [e])[|done|] == e;
    } else {
      forall i, k | 0 <= i < k < |done + [e]| ensures (done + [e])[i].unit != (done + [e])[k].unit {
        assert (done + [e])[i] == done[i] && done[i] in done;
      }
    }
  }

  method SetUniqueDecisionValue(m: map<string, Label>, e: Entry, ghost done: seq<Entry>) returns (r: Option<map<string, Label>>)
    requires Recorded(m, done) && DistinctUnits(done)
    ensures r.Some? <==> DistinctUnits(done + [e])
    ensures r.Some? ==> Recorded(r.value, done + [e])
  {
    var key := KeyOf(e.unit);
    KeyIsTaken(m, done, e);
    if key in m {
      return None;
    }
    r := Some(m[key := e.value]);
    RecordedOneMore(m, done, e);
  }

  lemma RecordedOneMore(m: map<string, Label>, done: seq<Entry>, e: Entry)
    requires Recorded(m, done) && KeyOf(e.unit) !in m
    ensures Recorded(m[KeyOf(e.unit) := e.value], done + [e])
  {
    hide KeyOf;
    var m' := m[KeyOf(e.unit) := e.value];
    assert e in done + [e];
    forall key | key in m' ensures exists x :: x in done + [e] && KeyOf(x.unit) == key {
      if key in m {
        var x :| x in done && KeyOf(x.unit) == key;
        assert x in done + [e];
      }
    }
  }

  method SetAll(m: map<string, Label>, es: seq<Entry>, ghost done: seq<Entry>) returns (r: Option<map<string, Label>>)
    requires Recorded(m, done) && DistinctUnits(done)
    ensures r.Some? <==> DistinctUnits(done + es)
    ensures r.Some? ==> Recorded(r.value, done + es)
  {
    hide Recorded, DistinctUnits;
    var current := m;
    assert done + es[..0] == done;
    for i := 0 to |es|
      invariant Recorded(current, done + es[..i]) && DistinctUnits(done + es[..i])
    {
      assert done + es[..i] + [es[i]] == done + es[..i + 1];
      assert done + es[..i + 1] + es[i + 1..] == done + es;
      var next := SetUniqueDecisionValue(current, es[i], done + es[..i]);
      if next.None? {
        if DistinctUnits(done + es) {
          DistinctPrefix(done + es[..i + 1], es[i + 1..]);
          assert false;
        }
        return None;
      }
      current := next.value;
    }
    assert done + es[..|es|] == done + es;
    return Some(current);
  }

  method AddTokens(m: map<string, Label>, id: string, ts: seq<AnnotatedToken>, ghost done: seq<Entry>)
    returns (r: Option<map<string, Label>>)
    requires Recorded(m, done) && DistinctUnits(done)
    ensures r.Some? <==> DistinctUnits(done + TokensEntries(id, ts))
    ensures r.Some? ==> Recorded(r.value, done + TokensEntries(id, ts))
  {
    hide Recorded, DistinctUnits, TokenEntries;
    var current := m;
    ghost var seen, all := done, done + TokensEntries(id, ts);
    assert ts[0..] == ts;
    for j := 0 to |ts|
      invariant Recorded(current, seen) && DistinctUnits(seen) && seen + TokensEntries(id, ts[j..]) == all
    {
      assert ts[j..][1..] == ts[j + 1..];
      var six := TokenEntries(id, ts[j]);
      Regroup(seen, six, TokensEntries(id, ts[j + 1..]));
      var next := SetAll(current, six, seen);
      if next.None? {
        Fails(seen + six, TokensEntries(id, ts[j + 1..]));
        return None;
      }
      current, seen := next.value, seen + six;
    }
    assert seen + [] == seen;
    return Some(current);
  }

  method AddSentence(m: map<string, Label>, s: AnnotatedSentence, ghost done: seq<Entry>) returns (r: Option<map<string, Label>>)
    requires Recorded(m, done) && DistinctUnits(done)
    ensures r.Some? <==> DistinctUnits(done + SentenceEntries(s))
    ensures r.Some? ==> Recorded(r.value, done + SentenceEntries(s))
  {
    hide Recorded, DistinctUnits, TokensEntries, SentenceEntry;
    var two := [SentenceEntry(s, StructurallyAcceptable), SentenceEntry(s, CompletePredicate)];
    Regroup(done, two, TokensEntries(s.sentenceId, s.tokens));
    r := SetAll(m, two, done);
    if r.None? {
      Fails(done + two, TokensEntries(s.sentenceId, s.tokens));
      return;
    }
    r := AddTokens(r.value, s.sentenceId, s.tokens, done + two);
  }

  lemma Regroup(a: seq<Entry>, b: seq<Entry>, c: seq<Entry>)
    ensures a + (b + c) == (a + b) + c
  {
  }

  /** A map of all units, or nothing when a unit comes twice. */
  method DecisionMap(ss: seq<AnnotatedSentence>) returns (values: Option<map<string, Label>>)
    ensures values.Some? <==> DistinctUnits(Entries(ss))
    ensures values.Some? ==> Recorded(values.value, Entries(ss))
  {
    hide Recorded, DistinctUnits, SentenceEntries;
    var m: map<string, Label> := map[];
    ghost var done: seq<Entry> := [];
    NothingRecorded();
    assert ss[0..] == ss;
    for i := 0 to |ss|
      invariant Recorded(m, done) && DistinctUnits(done) && done + Entries(ss[i..]) == Entries(ss)
    {
      assert ss[i..][1..] == ss[i + 1..];
      Regroup(done, SentenceEntries(ss[i]), Entries(ss[i + 1..]));
      var next := AddSentence(m, ss[i], done);
      if next.None? {
        Fails(done + SentenceEntries(ss[i]), Entries(ss[i + 1..]));
        return None;
      }
      m, done := next.value, done + SentenceEntries(ss[i]);
    }
    assert done + [] == done;
    return Some(m);
  }

  lemma NothingRecorded()
    ensures Recorded(map[], []) && DistinctUnits([])
  {
  }

  lemma Fails(a: seq<Entry>, b: seq<Entry>)
    requires !DistinctUnits(a)
    ensures !DistinctUnits(a + b)
  {
    if DistinctUnits(a + b) {
      DistinctPrefix(a, b);
    }
  }

  // ---- The entries are what the annotation says

  lemma {:induction false} TokensEntriesSay(id: string, ts: seq<AnnotatedToken>, e: Entry)
    ensures e in TokensEntries(id, ts) <==>
              exists k, f :: 0 <= k < |ts| && e == TokenEntry(id, ts[k], f)
  {
    hide TokenEntry;
    if |ts| > 0 {
      TokensEntriesSay(id, ts[1..], e);
      OneTokenSays(id, ts[0], e);
      if e in TokensEntries(id, ts[1..]) {
        var k, f :| 0 <= k < |ts[1..]| && e == TokenEntry(id, ts[1..][k], f);
        assert e == TokenEntry(id, ts[k + 1], f);
      }
      if k, f :| 0 < k < |ts| && e == TokenEntry(id, ts[k], f) {
        assert e == TokenEntry(id, ts[1..][k - 1], f);
      }
    }
  }

  lemma OneTokenSays(id: string, t: AnnotatedToken, e: Entry)
    ensures e in TokenEntries(id, t) <==> exists f :: e == TokenEntry(id, t, f)
  {
    hide TokenEntry;
    var es := TokenEntries(id, t);
    forall f ensures TokenEntry(id, t, f) in es {
      var k := FieldIndex(f);
      assert es[k] == TokenEntry(id, t, f);
    }
  }

  lemma FieldIndex(f: TokenField) returns (k: nat)
    ensures k < |TOKEN_FIELDS| && TOKEN_FIELDS[k] == f
  {
    match f
    case UniversalPartOfSpeech => k := 0;
    case HeadTokenId => k := 1;
    case DependencyRelation => k := 2;
    case IrabHeadTokenId => k := 3;
    case IrabCategory => k := 4;
    case IrabNotApplicable => k := 5;
  }

  lemma {:induction false} EntriesSay(ss: seq<AnnotatedSentence>, e: Entry)
    ensures e in Entries(ss) <==> Says(ss, e.unit, e.value)
  {
    if |ss| > 0 {
      EntriesSay(ss[1..], e);
      SentenceSays(ss[0], e);
      SaysSplit(ss, e.unit, e.value);
    }
  }

  lemma SaysSplit(ss: seq<AnnotatedSentence>, u: Unit, v: Label)
    requires |ss| > 0
    ensures Says(ss, u, v) <==> Says([ss[0]], u, v) || Says(ss[1..], u, v)
  {
    hide TokenValue, SentenceValue;
    assert [ss[0]][0] == ss[0];
    assert forall i :: 0 < i < |ss| ==> ss[i] == ss[1..][i - 1];
    assert forall i :: 0 <= i < |ss[1..]| ==> ss[1..][i] == ss[i + 1];
  }

  lemma SentenceSays(s: AnnotatedSentence, e: Entry)
    ensures e in SentenceEntries(s) <==> Says([s], e.unit, e.value)
  {
    TokensEntriesSay(s.sentenceId, s.tokens, e);
    hide TokensEntries, TokenValue, SentenceValue;
    match e.unit
    case OfSentence(id, f) =>
      assert [s][0] == s;
      assert e in SentenceEntries(s) <==> e == SentenceEntry(s, f) by {
        var two := [SentenceEntry(s, StructurallyAcceptable), SentenceEntry(s, CompletePredicate)];
        assert two[0] in two && two[1] in two;
        assert f == StructurallyAcceptable || f == CompletePredicate;
      }
    case OfToken(id, t, f) =>
      assert [s][0] == s;
      if k, g :| 0 <= k < |s.tokens| && e == TokenEntry(s.sentenceId, s.tokens[k], g) {
        assert [s][0].tokens[k].tokenId == t;
      }
      if k :| 0 <= k < |s.tokens| && s.sentenceId == id && s.tokens[k].tokenId == t && TokenValue(s.tokens[k], f) == e.value {
        assert e == TokenEntry(s.sentenceId, s.tokens[k], f);
      }
  }

  // ---- Units come once when sentences and tokens do

  lemma DistinctConcat(a: seq<Entry>, b: seq<Entry>)
    requires DistinctUnits(a) && DistinctUnits(b)
    requires forall x, y :: x in a && y in b ==> x.unit != y.unit
    ensures DistinctUnits(a + b)
  {
    forall i, k | 0 <= i < k < |a + b| ensures (a + b)[i].unit != (a + b)[k].unit {
      if i < |a| <= k {
        assert a[i] in a && b[k - |a|] in b;
      }
    }
  }

  lemma DistinctToken(id: string, t: AnnotatedToken)
    ensures DistinctUnits(TokenEntries(id, t))
  {
  }

  lemma {:induction false} DistinctTokensEntries(id: string, ts: seq<AnnotatedToken>)
    requires DistinctTokens(ts)
    ensures DistinctUnits(TokensEntries(id, ts))
  {
    hide TokenEntries;
    if |ts| > 0 {
      DistinctTokensEntries(id, ts[1..]);
      DistinctToken(id, ts[0]);
      forall x, y | x in TokenEntries(id, ts[0]) && y in TokensEntries(id, ts[1..]) ensures x.unit != y.unit {
        OneTokenSays(id, ts[0], x);
        TokensEntriesSay(id, ts[1..], y);
        var k, f :| 0 <= k < |ts[1..]| && y == TokenEntry(id, ts[1..][k], f);
        assert ts[1..][k] == ts[k + 1];
      }
      hide DistinctUnits;
      DistinctConcat(TokenEntries(id, ts[0]), TokensEntries(id, ts[1..]));
    }
  }

  lemma DistinctSentence(s: AnnotatedSentence)
    requires DistinctTokens(s.tokens)
    ensures DistinctUnits(SentenceEntries(s))
  {
    DistinctTokensEntries(s.sentenceId, s.tokens);
    var two := [SentenceEntry(s, StructurallyAcceptable), SentenceEntry(s, CompletePredicate)];
    forall x, y | x in two && y in TokensEntries(s.sentenceId, s.tokens) ensures x.unit != y.unit {
      TokensEntriesSay(s.sentenceId, s.tokens, y);
    }
    assert DistinctUnits(two);
    hide DistinctUnits;
    DistinctConcat(two, TokensEntries(s.sentenceId, s.tokens));
  }

  lemma {:induction false} DistinctEntries(ss: seq<AnnotatedSentence>)
    requires DistinctAnnotated(ss) && forall i :: 0 <= i < |ss| ==> DistinctTokens(ss[i].tokens)
    ensures DistinctUnits(Entries(ss))
  {
    hide SentenceEntries, DistinctTokens;
    if |ss| > 0 {
      DistinctEntries(ss[1..]);
      DistinctSentence(ss[0]);
      forall x, y | x in SentenceEntries(ss[0]) && y in Entries(ss[1..]) ensures x.unit != y.unit {
        SentenceSays(ss[0], x);
        EntriesSay(ss[1..], y);
        assert forall i :: 0 <= i < |ss[1..]| ==> ss[1..][i] == ss[i + 1];
      }
      hide DistinctUnits;
      DistinctConcat(SentenceEntries(ss[0]), Entries(ss[1..]));
    }
  }

  // ---- Coverage makes annotations comparable

  lemma CoveredIsDistinct(p: Packet, ss: seq<AnnotatedSentence>)
    requires PacketOk(p) && Covers(p, ss)
    ensures DistinctUnits(Entries(ss))
  {
    hide PacketOk, DistinctUnits, Entries;
    forall i | 0 <= i < |ss| ensures DistinctTokens(ss[i].tokens) {
      var k := V.Counterpart(p, ss, ss, i);
    }
    DistinctEntries(ss);
  }

  lemma CoveredUnit(p: Packet, xs: seq<AnnotatedSentence>, ys: seq<AnnotatedSentence>, u: Unit, v: Label) returns (w: Label)
    requires PacketOk(p) && Covers(p, xs) && Covers(p, ys) && Says(xs, u, v)
    ensures Says(ys, u, w)
  {
    hide PacketOk, TokenValue, SentenceValue;
    match u
    case OfSentence(id, f) =>
      var i :| 0 <= i < |xs| && xs[i].sentenceId == id && SentenceValue(xs[i], f) == v;
      var k := V.Counterpart(p, xs, ys, i);
      w := SentenceValue(ys[k], f);
    case OfToken(id, t, f) =>
      var i, j :| 0 <= i < |xs| && 0 <= j < |xs[i].tokens| && xs[i].sentenceId == id
                  && xs[i].tokens[j].tokenId == t && TokenValue(xs[i].tokens[j], f) == v;
      var k := V.Counterpart(p, xs, ys, i);
      var l := V.TokenCounterpart(xs[i].tokens, ys[k].tokens, j);
      w := TokenValue(ys[k].tokens[l], f);
  }

  // ---- Novel decisions

  /** The decision gives the unit a value that neither annotator gave it. */
  ghost predicate Novel(a: seq<AnnotatedSentence>, b: seq<AnnotatedSentence>, e: Entry) {
    !Says(a, e.unit, e.value) && !Says(b, e.unit, e.value)
  }

  ghost function NovelUnits(a: seq<AnnotatedSentence>, b: seq<AnnotatedSentence>, es: seq<Entry>): set<Unit> {
    set e | e in es && Novel(a, b, e) :: e.unit
  }

  lemma RecordedSays(m: map<string, Label>, ss: seq<AnnotatedSentence>, e: Entry)
    requires Recorded(m, Entries(ss)) && KeyOf(e.unit) in m
    ensures Says(ss, e.unit, e.value) <==> m[KeyOf(e.unit)] == e.value
  {
    EntriesSay(ss, e);
    hide KeyOf, Says;
    if m[KeyOf(e.unit)] == e.value {
      var x :| x in Entries(ss) && KeyOf(x.unit) == KeyOf(e.unit);
      KeysNeverCollide(x.unit, e.unit);
      assert x == e;
    }
  }

  ghost predicate HasUnit(ss: seq<AnnotatedSentence>, u: Unit) {
    exists v :: Says(ss, u, v)
  }

  lemma RecordedUnit(m: map<string, Label>, ss: seq<AnnotatedSentence>, u: Unit)
    requires Recorded(m, Entries(ss))
    ensures KeyOf(u) in m <==> HasUnit(ss, u)
  {
    hide KeyOf, Says;
    if KeyOf(u) in m {
      var x :| x in Entries(ss) && KeyOf(x.unit) == KeyOf(u);
      KeysNeverCollide(x.unit, u);
      EntriesSay(ss, x);
    }
    if v :| Says(ss, u, v) {
      EntriesSay(ss, Entry(u, v));
      assert Entry(u, v) in Entries(ss);
    }
  }

  /** The two give values to the same units. */
  ghost predicate SameUnits(xs: seq<AnnotatedSentence>, ys: seq<AnnotatedSentence>) {
    forall u :: HasUnit(xs, u) <==> HasUnit(ys, u)
  }

  lemma KeysWithin(f: map<string, Label>, m: map<string, Label>, final: seq<AnnotatedSentence>, ss: seq<AnnotatedSentence>)
    requires Recorded(f, Entries(final)) && Recorded(m, Entries(ss))
    ensures f.Keys == m.Keys <==> SameUnits(final, ss)
  {
    hide KeyOf, HasUnit;
    forall u ensures (KeyOf(u) in f <==> HasUnit(final, u)) && (KeyOf(u) in m <==> HasUnit(ss, u)) {
      RecordedUnit(f, final, u);
      RecordedUnit(m, ss, u);
    }
    if SameUnits(final, ss) {
      forall key ensures key in f <==> key in m {
        if key in f {
          var x :| x in Entries(final) && KeyOf(x.unit) == key;
          assert HasUnit(ss, x.unit);
        }
        if key in m {
          var x :| x in Entries(ss) && KeyOf(x.unit) == key;
          assert HasUnit(final, x.unit);
        }
      }
    }
  }

  /** The novel units whose keys have been looked at. */
  ghost function NovelAmong(a: seq<AnnotatedSentence>, b: seq<AnnotatedSentence>, es: seq<Entry>, keys: set<string>): set<Unit> {
    set e | e in es && KeyOf(e.unit) in keys && Novel(a, b, e) :: e.unit
  }

  lemma OneMoreKey(a: seq<AnnotatedSentence>, b: seq<AnnotatedSentence>, final: seq<AnnotatedSentence>,
                   am: map<string, Label>, bm: map<string, Label>, fm: map<string, Label>, keys: set<string>, key: string)
    requires Recorded(am, Entries(a)) && Recorded(bm, Entries(b)) && Recorded(fm, Entries(final))
    requires key in fm && key in am && key in bm && key !in keys
    ensures |NovelAmong(a, b, Entries(final), keys + {key})|
            == |NovelAmong(a, b, Entries(final), keys)| + (if fm[key] != am[key] && fm[key] != bm[key] then 1 else 0)
  {
    var x := EntryOfKey(fm, final, key);
    RecordedSays(am, a, x);
    RecordedSays(bm, b, x);
    hide KeyOf, Says, Recorded, Entries, NovelAmong;
    NovelStep(a, b, Entries(final), keys, x);
  }

  lemma EntryOfKey(fm: map<string, Label>, final: seq<AnnotatedSentence>, key: string) returns (x: Entry)
    requires Recorded(fm, Entries(final)) && key in fm
    ensures x in Entries(final) && KeyOf(x.unit) == key && fm[key] == x.value
    ensures forall y :: y in Entries(final) && KeyOf(y.unit) == key ==> y == x
  {
    hide KeyOf, Entries;
    x :| x in Entries(final) && KeyOf(x.unit) == key;
    forall y | y in Entries(final) && KeyOf(y.unit) == key ensures y == x {
      KeysNeverCollide(y.unit, x.unit);
    }
  }

  lemma NovelStep(a: seq<AnnotatedSentence>, b: seq<AnnotatedSentence>, es: seq<Entry>, keys: set<string>, x: Entry)
    requires x in es && KeyOf(x.unit) !in keys
    requires forall y :: y in es && KeyOf(y.unit) == KeyOf(x.unit) ==> y == x
    ensures |NovelAmong(a, b, es, keys + {KeyOf(x.unit)})|
            == |NovelAmong(a, b, es, keys)| + (if Novel(a, b, x) then 1 else 0)
  {
    hide KeyOf, Novel;
    var before, after := NovelAmong(a, b, es, keys), NovelAmong(a, b, es, keys + {KeyOf(x.unit)});
    assert x.unit !in before;
    assert after == if Novel(a, b, x) then before + {x.unit} else before;
  }

  method CountNovelValues(am: map<string, Label>, bm: map<string, Label>, fm: map<string, Label>,
                          ghost a: seq<AnnotatedSentence>, ghost b: seq<AnnotatedSentence>, ghost final: seq<AnnotatedSentence>)
    returns (count: Option<nat>)
    requires Recorded(am, Entries(a)) && Recorded(bm, Entries(b)) && Recorded(fm, Entries(final))
    ensures count.Some? <==> fm.Keys == am.Keys && fm.Keys == bm.Keys
    ensures count.Some? ==> count.value == |NovelUnits(a, b, Entries(final))|
  {
    hide *;
    var n := 0;
    var left := fm.Keys;
    ghost var done: set<string> := {};
    NoneAmong(a, b, Entries(final));
    NoneDone(left);
    while left != {}
      invariant Divided(fm.Keys, done, left)
      invariant done <= am.Keys && done <= bm.Keys
      invariant n == |NovelAmong(a, b, Entries(final), done)|
      decreases |left|
    {
      var key :| key in left;
      OneMoreDone(fm.Keys, done, left, key);
      if key !in am || key !in bm {
        return None;
      }
      OneMoreKey(a, b, final, am, bm, fm, done, key);
      var value := fm[key];
      if value != am[key] && value != bm[key] {
        n := n + 1;
      }
      done := done + {key};
      left := left - {key};
    }
    AllDone(fm.Keys, done);
    if |fm.Keys| != |am.Keys| || |fm.Keys| != |bm.Keys| {
      return None;
    }
    FullSubset(done, am.Keys);
    FullSubset(done, bm.Keys);
    AllAmong(a, b, final, fm);
    count := Some(n);
  }

  /** The number of units that the decision gives a value of its own. It throws exactly when
      a unit comes twice or the three do not have the same units. */
  method CountNovelPrimaryDecisions(a: seq<AnnotatedSentence>, b: seq<AnnotatedSentence>, final: seq<AnnotatedSentence>)
    returns (count: Option<nat>)
    ensures count.Some? <==>
              && DistinctUnits(Entries(a)) && DistinctUnits(Entries(b)) && DistinctUnits(Entries(final))
              && SameUnits(final, a) && SameUnits(final, b)
    ensures count.Some? ==> count.value == |NovelUnits(a, b, Entries(final))|
  {
    hide *;
    var am := DecisionMap(a);
    if am.None? {
      return None;
    }
    var bm := DecisionMap(b);
    if bm.None? {
      return None;
    }
    var fm := DecisionMap(final);
    if fm.None? {
      return None;
    }
    KeysWithin(fm.value, am.value, final, a);
    KeysWithin(fm.value, bm.value, final, b);
    count := CountNovelValues(am.value, bm.value, fm.value, a, b, final);
  }

  lemma NoneAmong(a: seq<AnnotatedSentence>, b: seq<AnnotatedSentence>, es: seq<Entry>)
    ensures NovelAmong(a, b, es, {}) == {}
  {
  }

  lemma AllAmong(a: seq<AnnotatedSentence>, b: seq<AnnotatedSentence>, final: seq<AnnotatedSentence>, fm: map<string, Label>)
    requires Recorded(fm, Entries(final))
    ensures NovelAmong(a, b, Entries(final), fm.Keys) == NovelUnits(a, b, Entries(final))
  {
  }

  /** Evidence that passes the coverage checks never makes the count throw. */
  lemma CoveredIsComparable(p: Packet, a: seq<AnnotatedSentence>, b: seq<AnnotatedSentence>, final: seq<AnnotatedSentence>)
    requires PacketOk(p) && Covers(p, a) && Covers(p, b) && Covers(p, final)
    ensures DistinctUnits(Entries(a)) && DistinctUnits(Entries(b)) && DistinctUnits(Entries(final))
    ensures SameUnits(final, a) && SameUnits(final, b)
  {
    CoveredIsDistinct(p, a);
    CoveredIsDistinct(p, b);
    CoveredIsDistinct(p, final);
    hide PacketOk, Covers, Says;
    forall u ensures (HasUnit(final, u) <==> HasUnit(a, u)) && (HasUnit(final, u) <==> HasUnit(b, u)) {
      UnitCarries(p, final, a, u);
      UnitCarries(p, a, final, u);
      UnitCarries(p, final, b, u);
      UnitCarries(p, b, final, u);
    }
  }

  lemma UnitCarries(p: Packet, xs: seq<AnnotatedSentence>, ys: seq<AnnotatedSentence>, u: Unit)
    requires PacketOk(p) && Covers(p, xs) && Covers(p, ys)
    ensures HasUnit(xs, u) ==> HasUnit(ys, u)
  {
    hide PacketOk, Covers, Says;
    if v :| Says(xs, u, v) {
      var w := CoveredUnit(p, xs, ys, u, v);
    }
  }

  /** Nothing is novel exactly when the decision takes every value from one of the annotators. */
  lemma NothingNovel(a: seq<AnnotatedSentence>, b: seq<AnnotatedSentence>, final: seq<AnnotatedSentence>)
    ensures |NovelUnits(a, b, Entries(final))| == 0 <==>
              forall u, v :: Says(final, u, v) ==> Says(a, u, v) || Says(b, u, v)
  {
    hide Says, Entries;
    if |NovelUnits(a, b, Entries(final))| == 0 {
      forall u, v | Says(final, u, v) ensures Says(a, u, v) || Says(b, u, v) {
        EntriesSay(final, Entry(u, v));
        assert u !in NovelUnits(a, b, Entries(final));
      }
    }
    if forall u, v :: Says(final, u, v) ==> Says(a, u, v) || Says(b, u, v) {
      forall e | e in Entries(final) ensures !Novel(a, b, e) {
        EntriesSay(final, e);
      }
      assert NovelUnits(a, b, Entries(final)) == {};
    }
  }
}
