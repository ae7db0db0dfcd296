/** The agreement of two independent annotations, dimension by dimension. */
module IndependentAgreement {
  import opened Options
  import opened Evidence
  import opened DecisionKeys
  import opened NovelDecisions
  import opened CohenKappa
  import opened Sets
  import V = EvidenceCoverage

  // ---- Coverage keys

  datatype Place = AtSentence(sentenceId: string) | AtToken(sentenceId: string, tokenId: int)

  function PlaceKey(p: Place): string {
    match p
    case AtSentence(id) => SentenceKey(id)
    case AtToken(id, t) => TokenKey(id, t)
  }

  lemma PlaceKeysNeverCollide(p: Place, q: Place)
    requires PlaceKey(p) == PlaceKey(q)
    ensures p == q
  {
    hide SentenceKey, TokenKey;
    var t := if p.AtToken? then p.tokenId else 0;
    var t' := if q.AtToken? then q.tokenId else 0;
    CoverageKeysNeverCollide(p.sentenceId, q.sentenceId, t, t');
    CoverageKeysNeverCollide(q.sentenceId, p.sentenceId, t', t);
  }

  function TokenPlaces(id: string, ts: seq<AnnotatedToken>): seq<Place> {
    if |ts| == 0 then [] else [AtToken(id, ts[0].tokenId)] + TokenPlaces(id, ts[1..])
  }

  function Places(ss: seq<AnnotatedSentence>): seq<Place> {
    if |ss| == 0 then []
    else [AtSentence(ss[0].sentenceId)] + TokenPlaces(ss[0].sentenceId, ss[0].tokens) + Places(ss[1..])
  }

  ghost predicate DistinctPlaces(ps: seq<Place>) {
    forall i, k :: 0 <= i < k < |ps| ==> ps[i] != ps[k]
  }

  ghost function KeysOf(ps: seq<Place>): set<string> {
    set p | p in ps :: PlaceKey(p)
  }

  lemma OneMorePlace(done: seq<Place>, p: Place)
    requires DistinctPlaces(done)
    ensures KeysOf(done + [p]) == KeysOf(done) + {PlaceKey(p)}
    ensures PlaceKey(p) in KeysOf(done) <==> !DistinctPlaces(done + [p])
  {
    hide PlaceKey;
    assert forall q :: q in done + [p] <==> q in done || q == p;
    if PlaceKey(p) in KeysOf(done) {
      var q :| q in done && PlaceKey(q) == PlaceKey(p);
      PlaceKeysNeverCollide(q, p);
      var i :| 0 <= i < |done| && done[i] == q;
      assert (done + [p])[i] == q && (done + [p])[|done|] == p;
    } else {
      assert p !in done;
    }
  }

  lemma PlacePrefix(a: seq<Place>, b: seq<Place>)
    requires DistinctPlaces(a + b)
    ensures DistinctPlaces(a)
  {
    assert forall i :: 0 <= i < |a| ==> (a + b)[i] == a[i];
  }

  lemma PlacesFail(a: seq<Place>, b: seq<Place>)
    requires !DistinctPlaces(a)
    ensures !DistinctPlaces(a + b)
  {
    if DistinctPlaces(a + b) {
      PlacePrefix(a, b);
    }
  }

  lemma RegroupPlaces(a: seq<Place>, b: seq<Place>, c: seq<Place>)
    ensures a + (b + c) == (a + b) + c
  {
  }

  method CoverTokens(keys: set<string>, id: string, ts: seq<AnnotatedToken>, ghost done: seq<Place>) returns (r: Option<set<string>>)
    requires keys == KeysOf(done) && DistinctPlaces(done)
    ensures r.Some? <==> DistinctPlaces(done + TokenPlaces(id, ts))
    ensures r.Some? ==> r.value == KeysOf(done + TokenPlaces(id, ts))
  {
    hide DistinctPlaces, KeysOf;
    var current := keys;
    ghost var seen, all := done, done + TokenPlaces(id, ts);
    assert ts[0..] == ts;
    for j := 0 to |ts|
      invariant current == KeysOf(seen) && DistinctPlaces(seen) && seen + TokenPlaces(id, ts[j..]) == all
    {
      assert ts[j..][1..] == ts[j + 1..];
      ghost var p := AtToken(id, ts[j].tokenId);
      RegroupPlaces(seen, [p], TokenPlaces(id, ts[j + 1..]));
      OneMorePlace(seen, p);
      if TokenKey(id, ts[j].tokenId) in current {
        PlacesFail(seen + [p], TokenPlaces(id, ts[j + 1..]));
        return None;
      }
      current, seen := current + {TokenKey(id, ts[j].tokenId)}, seen + [p];
    }
    assert seen + [] == seen;
    return Some(current);
  }

  ghost predicate Named(ss: seq<AnnotatedSentence>) {
    forall i :: 0 <= i < |ss| ==> ss[i].sentenceId != ""
  }

  /** The keys of all sentences and tokens; it throws when one comes twice or has no name. */
  method AnnotationCoverage(ss: seq<AnnotatedSentence>) returns (keys: Option<set<string>>)
    ensures keys.Some? <==> Named(ss) && DistinctPlaces(Places(ss))
    ensures keys.Some? ==> keys.value == KeysOf(Places(ss))
  {
    hide DistinctPlaces, KeysOf, TokenPlaces;
    var current: set<string> := {};
    ghost var done: seq<Place> := [];
    NoPlaces();
    assert ss[0..] == ss;
    for i := 0 to |ss|
      invariant current == KeysOf(done) && DistinctPlaces(done) && done + Places(ss[i..]) == Places(ss)
      invariant forall k :: 0 <= k < i ==> ss[k].sentenceId != ""
    {
      var s := ss[i];
      assert ss[i..][1..] == ss[i + 1..];
      ghost var p, mine, rest := AtSentence(s.sentenceId), TokenPlaces(s.sentenceId, s.tokens), Places(ss[i + 1..]);
      assert Places(ss[i..]) == [p] + (mine + rest);
      RegroupPlaces(done, [p], mine + rest);
      RegroupPlaces(done + [p], mine, rest);
      OneMorePlace(done, p);
      if s.sentenceId == "" || SentenceKey(s.sentenceId) in current {
        if s.sentenceId != "" {
          PlacesFail(done + [p], mine + rest);
        }
        return None;
      }
      var next := CoverTokens(current + {SentenceKey(s.sentenceId)}, s.sentenceId, s.tokens, done + [p]);
      if next.None? {
        PlacesFail(done + [p] + mine, rest);
        return None;
      }
      current, done := next.value, done + [p] + mine;
    }
    assert done + [] == done;
    return Some(current);
  }

  lemma NoPlaces()
    ensures KeysOf([]) == {} && DistinctPlaces([])
  {
  }

  ghost predicate SamePlaces(a: seq<AnnotatedSentence>, b: seq<AnnotatedSentence>) {
    forall p :: p in Places(a) <==> p in Places(b)
  }

  lemma SameKeysSamePlaces(a: seq<AnnotatedSentence>, b: seq<AnnotatedSentence>)
    ensures KeysOf(Places(a)) == KeysOf(Places(b)) <==> SamePlaces(a, b)
  {
    hide PlaceKey, Places;
    if KeysOf(Places(a)) == KeysOf(Places(b)) {
      forall p ensures p in Places(a) <==> p in Places(b) {
        KeyMeansPlace(Places(a), p);
        KeyMeansPlace(Places(b), p);
      }
    }
  }

  lemma KeyMeansPlace(ps: seq<Place>, p: Place)
    ensures PlaceKey(p) in KeysOf(ps) <==> p in ps
  {
    hide PlaceKey;
    if PlaceKey(p) in KeysOf(ps) {
      var q :| q in ps && PlaceKey(q) == PlaceKey(p);
      PlaceKeysNeverCollide(q, p);
    }
  }

  /** What the agreement needs of its two annotations. */
  ghost predicate Comparable(a: seq<AnnotatedSentence>, b: seq<AnnotatedSentence>) {
    && Named(a) && Named(b) && DistinctPlaces(Places(a)) && DistinctPlaces(Places(b)) && SamePlaces(a, b)
  }

  method AssertComparableCoverage(a: seq<AnnotatedSentence>, b: seq<AnnotatedSentence>) returns (ok: bool)
    ensures ok <==> Comparable(a, b)
  {
    hide Named, DistinctPlaces, KeysOf, SamePlaces;
    var left := AnnotationCoverage(a);
    if left.None? {
      return false;
    }
    var right := AnnotationCoverage(b);
    if right.None? {
      return false;
    }
    SameKeysSamePlaces(a, b);
    if |left.value| != |right.value| || !(left.value <= right.value) {
      return false;
    }
    FullSubset(left.value, right.value);
    return true;
  }

  // ---- Places are the sentences and tokens of the annotation

  ghost predicate HasPlace(ss: seq<AnnotatedSentence>, p: Place) {
    match p
    case AtSentence(id) => exists i :: 0 <= i < |ss| && ss[i].sentenceId == id
    case AtToken(id, t) =>
      exists i, k :: 0 <= i < |ss| && 0 <= k < |ss[i].tokens| && ss[i].sentenceId == id && ss[i].tokens[k].tokenId == t
  }

  lemma {:induction false} TokenPlaceIn(id: string, ts: seq<AnnotatedToken>, p: Place)
    ensures p in TokenPlaces(id, ts) <==> p.AtToken? && p.sentenceId == id && exists k :: 0 <= k < |ts| && ts[k].tokenId == p.tokenId
  {
    if |ts| > 0 {
      TokenPlaceIn(id, ts[1..], p);
      assert forall k :: 0 < k < |ts| ==> ts[k] == ts[1..][k - 1];
      assert forall k :: 0 <= k < |ts[1..]| ==> ts[1..][k] == ts[k + 1];
    }
  }

  lemma {:induction false} PlaceIn(ss: seq<AnnotatedSentence>, p: Place)
    ensures p in Places(ss) <==> HasPlace(ss, p)
  {
    if |ss| > 0 {
      PlaceIn(ss[1..], p);
      TokenPlaceIn(ss[0].sentenceId, ss[0].tokens, p);
      assert forall k :: 0 < k < |ss| ==> ss[k] == ss[1..][k - 1];
      assert forall k :: 0 <= k < |ss[1..]| ==> ss[1..][k] == ss[k + 1];
    }
  }

  lemma DistinctPlacesConcat(a: seq<Place>, b: seq<Place>)
    requires DistinctPlaces(a) && DistinctPlaces(b) && forall p :: p in a ==> p !in b
    ensures DistinctPlaces(a + b)
  {
    forall i, k | 0 <= i < k < |a + b| ensures (a + b)[i] != (a + b)[k] {
      if i < |a| <= k {
        assert a[i] in a && b[k - |a|] in b;
      }
    }
  }

  lemma {:induction false} DistinctTokenPlaces(id: string, ts: seq<AnnotatedToken>)
    requires DistinctTokens(ts)
    ensures DistinctPlaces(TokenPlaces(id, ts))
  {
    if |ts| > 0 {
      DistinctTokenPlaces(id, ts[1..]);
      TokenPlaceIn(id, ts[1..], AtToken(id, ts[0].tokenId));
      hide DistinctPlaces;
      OneDistinct(AtToken(id, ts[0].tokenId));
      DistinctPlacesConcat([AtToken(id, ts[0].tokenId)], TokenPlaces(id, ts[1..]));
    }
  }

  lemma OneDistinct(p: Place)
    ensures DistinctPlaces([p])
  {
  }

  lemma {:induction false} PlacesAreDistinct(ss: seq<AnnotatedSentence>)
    requires DistinctAnnotated(ss) && forall i :: 0 <= i < |ss| ==> DistinctTokens(ss[i].tokens)
    ensures DistinctPlaces(Places(ss))
  {
    hide DistinctTokens, DistinctPlaces;
    if |ss| == 0 {
      NoPlaces();
    } else {
      PlacesAreDistinct(ss[1..]);
      var id, mine := ss[0].sentenceId, TokenPlaces(ss[0].sentenceId, ss[0].tokens);
      DistinctTokenPlaces(id, ss[0].tokens);
      OneDistinct(AtSentence(id));
      TokenPlaceIn(id, ss[0].tokens, AtSentence(id));
      DistinctPlacesConcat([AtSentence(id)], mine);
      forall p | p in [AtSentence(id)] + mine ensures p !in Places(ss[1..]) {
        TokenPlaceIn(id, ss[0].tokens, p);
        PlaceIn(ss[1..], p);
        assert forall k :: 0 <= k < |ss[1..]| ==> ss[1..][k] == ss[k + 1];
      }
      DistinctPlacesConcat([AtSentence(id)] + mine, Places(ss[1..]));
    }
  }

  /** Annotations that pass the coverage checks are always comparable. */
  lemma CoveredIsComparable(p: Packet, a: seq<AnnotatedSentence>, b: seq<AnnotatedSentence>)
    requires PacketOk(p) && Covers(p, a) && Covers(p, b)
    ensures Comparable(a, b)
  {
    CoveredPlaces(p, a);
    CoveredPlaces(p, b);
    hide PacketOk, Covers, DistinctPlaces, Places;
    forall q ensures q in Places(a) <==> q in Places(b) {
      PlaceIn(a, q);
      PlaceIn(b, q);
      PlaceCarries(p, a, b, q);
      PlaceCarries(p, b, a, q);
    }
  }

  lemma CoveredPlaces(p: Packet, ss: seq<AnnotatedSentence>)
    requires PacketOk(p) && Covers(p, ss)
    ensures Named(ss) && DistinctPlaces(Places(ss))
  {
    forall i | 0 <= i < |ss| ensures ss[i].sentenceId != "" && DistinctTokens(ss[i].tokens) {
      var k := V.Source(p, ss, i);
      assert SentenceOk(p.sentences[k]);
    }
    hide PacketOk, DistinctPlaces, DistinctTokens;
    PlacesAreDistinct(ss);
  }

  lemma PlaceCarries(p: Packet, xs: seq<AnnotatedSentence>, ys: seq<AnnotatedSentence>, q: Place)
    requires PacketOk(p) && Covers(p, xs) && Covers(p, ys)
    ensures HasPlace(xs, q) ==> HasPlace(ys, q)
  {
    hide PacketOk, Covers;
    if HasPlace(xs, q) {
      match q
      case AtSentence(id) =>
        var i :| 0 <= i < |xs| && xs[i].sentenceId == id;
        var k := V.Counterpart(p, xs, ys, i);
      case AtToken(id, t) =>
        var i, j :| 0 <= i < |xs| && 0 <= j < |xs[i].tokens| && xs[i].sentenceId == id && xs[i].tokens[j].tokenId == t;
        var k := V.Counterpart(p, xs, ys, i);
        var l := V.TokenCounterpart(xs[i].tokens, ys[k].tokens, j);
    }
  }

  // ---- Pairs

  type Labels2 = Pair<Label>

  /** The pair of values that the two annotations give a sentence. */
  ghost predicate SentencePair(pair: Labels2, s: AnnotatedSentence, b: seq<AnnotatedSentence>, f: SentenceField) {
    pair.0 == SentenceValue(s, f) && Says(b, OfSentence(s.sentenceId, f), pair.1)
  }

  ghost predicate SentencePairsUp(pairs: seq<Labels2>, a: seq<AnnotatedSentence>, b: seq<AnnotatedSentence>, f: SentenceField) {
    |pairs| == |a| && forall i :: 0 <= i < |a| ==> SentencePair(pairs[i], a[i], b, f)
  }

  /** A token where it stands. */
  datatype Placed = Placed(sentenceId: string, token: AnnotatedToken)

  function PlacedTokens(id: string, ts: seq<AnnotatedToken>): (r: seq<Placed>)
    ensures |r| == |ts| && forall k :: 0 <= k < |ts| ==> r[k] == Placed(id, ts[k])
  {
    seq(|ts|, k requires 0 <= k < |ts| => Placed(id, ts[k]))
  }

  function AllPlaced(ss: seq<AnnotatedSentence>): seq<Placed> {
    if |ss| == 0 then [] else PlacedTokens(ss[0].sentenceId, ss[0].tokens) + AllPlaced(ss[1..])
  }

  ghost predicate TokenPair(pair: Labels2, x: Placed, b: seq<AnnotatedSentence>, f: TokenField) {
    pair.0 == TokenValue(x.token, f) && Says(b, OfToken(x.sentenceId, x.token.tokenId, f), pair.1)
  }

  ghost predicate TokenPairsUp(pairs: seq<Labels2>, xs: seq<Placed>, b: seq<AnnotatedSentence>, f: TokenField) {
    |pairs| == |xs| && forall i :: 0 <= i < |xs| ==> TokenPair(pairs[i], xs[i], b, f)
  }

  /** The last sentence with each identifier, as the map of sentences holds them. */
  ghost predicate HoldsSentences(m: map<string, AnnotatedSentence>, ss: seq<AnnotatedSentence>) {
    && (forall k :: 0 <= k < |ss| ==> ss[k].sentenceId in m)
    && (forall id :: id in m ==> m[id].sentenceId == id && m[id] in ss)
  }

  method SentencePairs(a: seq<AnnotatedSentence>, b: seq<AnnotatedSentence>, f: SentenceField) returns (pairs: Option<seq<Labels2>>)
    ensures pairs.Some? <==> forall i :: 0 <= i < |a| ==> HasPlace(b, AtSentence(a[i].sentenceId))
    ensures pairs.Some? ==> SentencePairsUp(pairs.value, a, b, f)
  {
    hide SentenceValue;
    var right: map<string, AnnotatedSentence> := map[];
    for k := 0 to |b|
      invariant HoldsSentences(right, b[..k])
    {
      assert b[..k + 1] == b[..k] + [b[k]];
      right := right[b[k].sentenceId := b[k]];
    }
    assert b[..|b|] == b;
    var found: seq<Labels2> := [];
    for i := 0 to |a|
      invariant SentencePairsUp(found, a[..i], b, f)
      invariant forall k :: 0 <= k < i ==> HasPlace(b, AtSentence(a[k].sentenceId))
    {
      if a[i].sentenceId !in right {
        return None;
      }
      var other := right[a[i].sentenceId];
      var k :| 0 <= k < |b| && b[k] == other;
      found := found + [(SentenceValue(a[i], f), SentenceValue(other, f))];
      assert SentencePair(found[i], a[i], b, f);
    }
    assert a[..|a|] == a;
    return Some(found);
  }

  ghost predicate HoldsTokens(m: map<string, AnnotatedToken>, xs: seq<Placed>) {
    && (forall x :: x in xs ==> TokenPlace(x.sentenceId, x.token.tokenId) in m)
    && (forall key :: key in m ==> exists x :: x in xs && TokenPlace(x.sentenceId, x.token.tokenId) == key && m[key] == x.token)
  }

  lemma HoldsOneMore(m: map<string, AnnotatedToken>, xs: seq<Placed>, x: Placed)
    requires HoldsTokens(m, xs)
    ensures HoldsTokens(m[TokenPlace(x.sentenceId, x.token.tokenId) := x.token], xs + [x])
  {
    hide TokenPlace;
    var key' := TokenPlace(x.sentenceId, x.token.tokenId);
    var m' := m[key' := x.token];
    assert x in xs + [x];
    forall key | key in m'
      ensures exists y :: y in xs + [x] && TokenPlace(y.sentenceId, y.token.tokenId) == key && m'[key] == y.token
    {
      if key != key' {
        var y :| y in xs && TokenPlace(y.sentenceId, y.token.tokenId) == key && m[key] == y.token;
        assert y in xs + [x];
      }
    }
  }

  method IndexPlaced(b: seq<AnnotatedSentence>) returns (right: map<string, AnnotatedToken>)
    ensures HoldsTokens(right, AllPlaced(b))
  {
    hide HoldsTokens, TokenPlace;
    right := map[];
    ghost var done: seq<Placed> := [];
    NothingHeld();
    assert b[0..] == b;
    for i := 0 to |b|
      invariant HoldsTokens(right, done) && done + AllPlaced(b[i..]) == AllPlaced(b)
    {
      assert b[i..][1..] == b[i + 1..];
      ghost var start := done;
      var s := b[i];
      for j := 0 to |s.tokens|
        invariant HoldsTokens(right, done) && done == start + PlacedTokens(s.sentenceId, s.tokens)[..j]
      {
        HoldsOneMore(right, done, Placed(s.sentenceId, s.tokens[j]));
        right := right[TokenPlace(s.sentenceId, s.tokens[j].tokenId) := s.tokens[j]];
        done := done + [Placed(s.sentenceId, s.tokens[j])];
      }
      assert done == start + PlacedTokens(s.sentenceId, s.tokens);
    }
    assert done + [] == done;
  }

  lemma NothingHeld()
    ensures HoldsTokens(map[], [])
  {
  }

  lemma {:induction false} PlacedIn(ss: seq<AnnotatedSentence>, x: Placed)
    ensures x in AllPlaced(ss) <==>
              exists i, k :: 0 <= i < |ss| && 0 <= k < |ss[i].tokens| && x == Placed(ss[i].sentenceId, ss[i].tokens[k])
  {
    if |ss| > 0 {
      PlacedIn(ss[1..], x);
      assert forall k :: 0 < k < |ss| ==> ss[k] == ss[1..][k - 1];
      assert forall k :: 0 <= k < |ss[1..]| ==> ss[1..][k] == ss[k + 1];
      if k :| 0 <= k < |ss[0].tokens| && x == Placed(ss[0].sentenceId, ss[0].tokens[k]) {
        assert PlacedTokens(ss[0].sentenceId, ss[0].tokens)[k] == x;
      }
    }
  }

  lemma LookUpToken(right: map<string, AnnotatedToken>, b: seq<AnnotatedSentence>, id: string, t: int, f: TokenField)
    requires HoldsTokens(right, AllPlaced(b))
    ensures TokenPlace(id, t) in right <==> HasPlace(b, AtToken(id, t))
    ensures TokenPlace(id, t) in right ==> Says(b, OfToken(id, t, f), TokenValue(right[TokenPlace(id, t)], f))
  {
    hide TokenPlace, TokenValue, AllPlaced;
    var key := TokenPlace(id, t);
    if key in right {
      var x :| x in AllPlaced(b) && TokenPlace(x.sentenceId, x.token.tokenId) == key && right[key] == x.token;
      PlacesDiffer(x.sentenceId, x.token.tokenId, id, t);
      PlacedIn(b, x);
    }
    if HasPlace(b, AtToken(id, t)) {
      var i, k :| 0 <= i < |b| && 0 <= k < |b[i].tokens| && b[i].sentenceId == id && b[i].tokens[k].tokenId == t;
      PlacedIn(b, Placed(id, b[i].tokens[k]));
      assert Placed(id, b[i].tokens[k]) in AllPlaced(b);
    }
  }

  ghost predicate Found(b: seq<AnnotatedSentence>, x: Placed) {
    HasPlace(b, AtToken(x.sentenceId, x.token.tokenId))
  }

  method TokenPairsOf(id: string, ts: seq<AnnotatedToken>, right: map<string, AnnotatedToken>, ghost b: seq<AnnotatedSentence>, f: TokenField)
    returns (pairs: Option<seq<Labels2>>)
    requires HoldsTokens(right, AllPlaced(b))
    ensures pairs.Some? <==> forall x :: x in PlacedTokens(id, ts) ==> Found(b, x)
    ensures pairs.Some? ==> TokenPairsUp(pairs.value, PlacedTokens(id, ts), b, f)
  {
    hide TokenPlace, TokenValue, HoldsTokens, Says, HasPlace;
    ghost var xs := PlacedTokens(id, ts);
    var found: seq<Labels2> := [];
    for j := 0 to |ts|
      invariant TokenPairsUp(found, xs[..j], b, f)
      invariant forall k :: 0 <= k < j ==> Found(b, xs[k])
    {
      var key := TokenPlace(id, ts[j].tokenId);
      LookUpToken(right, b, id, ts[j].tokenId, f);
      if key !in right {
        assert !Found(b, xs[j]);
        return None;
      }
      found := found + [(TokenValue(ts[j], f), TokenValue(right[key], f))];
      assert TokenPair(found[j], xs[j], b, f);
    }
    assert xs[..|ts|] == xs;
    return Some(found);
  }

  method TokenPairs(a: seq<AnnotatedSentence>, b: seq<AnnotatedSentence>, f: TokenField) returns (pairs: Option<seq<Labels2>>)
    ensures pairs.Some? <==> forall x :: x in AllPlaced(a) ==> Found(b, x)
    ensures pairs.Some? ==> TokenPairsUp(pairs.value, AllPlaced(a), b, f)
  {
    hide HoldsTokens, Found, TokenPair, PlacedTokens;
    var right := IndexPlaced(b);
    var found: seq<Labels2> := [];
    ghost var done: seq<Placed> := [];
    assert a[0..] == a;
    for i := 0 to |a|
      invariant TokenPairsUp(found, done, b, f) && done + AllPlaced(a[i..]) == AllPlaced(a)
      invariant forall x :: x in done ==> Found(b, x)
    {
      assert a[i..][1..] == a[i + 1..];
      ghost var mine := PlacedTokens(a[i].sentenceId, a[i].tokens);
      assert done + (mine + AllPlaced(a[i + 1..])) == (done + mine) + AllPlaced(a[i + 1..]);
      var more := TokenPairsOf(a[i].sentenceId, a[i].tokens, right, b, f);
      if more.None? {
        ghost var x :| x in mine && !Found(b, x);
        assert x in AllPlaced(a);
        return None;
      }
      found, done := found + more.value, done + mine;
    }
    assert done + [] == done;
    return Some(found);
  }

  // ---- Dimensions

  datatype Dimension = Dimension(unitCount: nat, disagreementCount: nat, rawAgreement: real, cohenKappa: Option<real>)

  ghost predicate Measures(d: Dimension, pairs: seq<Labels2>) {
    && d.unitCount == |pairs| && d.disagreementCount + Agreements(pairs) == |pairs|
    && d.rawAgreement == (if |pairs| > 0 then Share(Agreements(pairs), |pairs|) else 1.0)
    && d.cohenKappa == Kappa(pairs)
  }

  method MeasureDimension(pairs: seq<Labels2>) returns (d: Dimension)
    ensures Measures(d, pairs)
  {
    hide Kappa;
    var disagreements := 0;
    NoAgreements<Label>();
    for i := 0 to |pairs|
      invariant disagreements + Agreements(pairs[..i]) == i
    {
      assert pairs[..i + 1] == pairs[..i] + [pairs[i]];
      TotalAppend(pairs[..i], pairs[i], Agrees());
      if pairs[i].0 != pairs[i].1 {
        disagreements := disagreements + 1;
      }
    }
    assert pairs[..|pairs|] == pairs;
    var kappa := ComputeCohenKappa(pairs);
    var n := |pairs|;
    d := Dimension(n, disagreements, if n > 0 then Share(n - disagreements, n) else 1.0, kappa);
  }

  /** Nothing disagrees exactly when the pairs are equal; the agreement is then full. */
  lemma MeasuredExactly(d: Dimension, pairs: seq<Labels2>)
    requires Measures(d, pairs)
    ensures d.disagreementCount == 0 <==> forall p :: p in pairs ==> p.0 == p.1
    ensures 0.0 <= d.rawAgreement <= 1.0
    ensures d.cohenKappa.Some? ==> -1.0 <= d.cohenKappa.value <= 1.0
    ensures d.disagreementCount == 0 ==> d.rawAgreement == 1.0 && (d.cohenKappa.Some? ==> d.cohenKappa.value == 1.0)
  {
    TotalConstant(pairs, 1);
    TotalLessEqual(pairs, Agrees(), (p: Labels2) => 1);
    if forall p :: p in pairs ==> p.0 == p.1 {
      TotalSame(pairs, Agrees(), (p: Labels2) => 1);
    }
    if |pairs| > 0 {
      ShareIsOne(Agreements(pairs), |pairs|);
      ShareIsOne(|pairs|, |pairs|);
      ShareMonotone(Agreements(pairs), |pairs|, |pairs|);
      ShareMonotone(0, Agreements(pairs), |pairs|);
      NoShare(|pairs|);
    }
    if d.cohenKappa.Some? {
      KappaBounds(pairs);
    }
  }

  // ---- The whole agreement

  function Sum(xs: seq<real>): real {
    if |xs| == 0 then 0.0 else Sum(xs[..|xs| - 1]) + xs[|xs| - 1]
  }

  method Average(xs: seq<real>) returns (mean: real)
    ensures |xs| > 0 ==> mean == Sum(xs) / |xs| as real
    ensures |xs| == 0 ==> mean == 0.0
  {
    if |xs| == 0 {
      return 0.0;
    }
    var sum := 0.0;
    for i := 0 to |xs|
      invariant sum == Sum(xs[..i])
    {
      assert xs[..i + 1][..i] == xs[..i];
      sum := sum + xs[i];
    }
    assert xs[..|xs|] == xs;
    mean := sum / |xs| as real;
  }

  lemma {:induction false} SumWithin(xs: seq<real>, low: real, high: real)
    requires forall x :: x in xs ==> low <= x <= high
    ensures |xs| as real * low <= Sum(xs) <= |xs| as real * high
  {
    if |xs| > 0 {
      var front := xs[..|xs| - 1];
      forall x | x in front ensures low <= x <= high {
        assert x in xs;
      }
      SumWithin(front, low, high);
      assert xs[|xs| - 1] in xs;
    }
  }

  /** A mean lies between the bounds of its values. */
  lemma MeanWithin(xs: seq<real>, low: real, high: real)
    requires |xs| > 0 && forall x :: x in xs ==> low <= x <= high
    ensures low <= Sum(xs) / |xs| as real <= high
  {
    SumWithin(xs, low, high);
    MeanBounds(Sum(xs), |xs| as real, low, high);
  }

  lemma MeanBounds(sum: real, n: real, low: real, high: real)
    requires n > 0.0 && n * low <= sum <= n * high
    ensures low <= sum / n <= high
  {
    DivideMonotone(n * low, sum, n);
    DivideMonotone(sum, n * high, n);
    DivideBack(n, low);
    DivideBack(n, high);
  }

  lemma DivideBack(n: real, x: real)
    requires n > 0.0
    ensures (n * x) / n == x
  {
  }

  datatype Metrics = Metrics(
    unitCount: nat,
    exactAgreement: bool,
    macroRawAgreement: real,
    macroDefinedKappa: Option<real>,
    dimensions: seq<Dimension>)

  /** The pairs behind the eight dimensions, in their order. */
  ghost predicate EightPairs(all: seq<seq<Labels2>>, a: seq<AnnotatedSentence>, b: seq<AnnotatedSentence>) {
    && |all| == 8
    && SentencePairsUp(all[0], a, b, StructurallyAcceptable) && SentencePairsUp(all[1], a, b, CompletePredicate)
    && forall i :: 0 <= i < 6 ==> TokenPairsUp(all[i + 2], AllPlaced(a), b, TOKEN_FIELDS[i])
  }

  ghost predicate MeasuresAll(ds: seq<Dimension>, all: seq<seq<Labels2>>) {
    |ds| == |all| && forall i :: 0 <= i < |all| ==> Measures(ds[i], all[i])
  }

  lemma LookupsSucceed(a: seq<AnnotatedSentence>, b: seq<AnnotatedSentence>)
    requires SamePlaces(a, b)
    ensures forall i :: 0 <= i < |a| ==> HasPlace(b, AtSentence(a[i].sentenceId))
    ensures forall x :: x in AllPlaced(a) ==> Found(b, x)
  {
    hide Places, AllPlaced;
    forall i | 0 <= i < |a| ensures HasPlace(b, AtSentence(a[i].sentenceId)) {
      PlaceIn(a, AtSentence(a[i].sentenceId));
      PlaceIn(b, AtSentence(a[i].sentenceId));
    }
    forall x | x in AllPlaced(a) ensures Found(b, x) {
      PlacedIn(a, x);
      PlaceIn(a, AtToken(x.sentenceId, x.token.tokenId));
      PlaceIn(b, AtToken(x.sentenceId, x.token.tokenId));
    }
  }

  ghost predicate MeasuresTokens(ds: seq<Dimension>, all: seq<seq<Labels2>>, xs: seq<Placed>, b: seq<AnnotatedSentence>, n: nat) {
    && |ds| == |all| == n <= 6
    && forall k :: 0 <= k < n ==> Measures(ds[k], all[k]) && TokenPairsUp(all[k], xs, b, TOKEN_FIELDS[k])
  }

  lemma OneMoreDimension(ds: seq<Dimension>, all: seq<seq<Labels2>>, xs: seq<Placed>, b: seq<AnnotatedSentence>, n: nat,
                         d: Dimension, pairs: seq<Labels2>)
    requires MeasuresTokens(ds, all, xs, b, n) && n < 6
    requires Measures(d, pairs) && TokenPairsUp(pairs, xs, b, TOKEN_FIELDS[n])
    ensures MeasuresTokens(ds + [d], all + [pairs], xs, b, n + 1)
  {
    hide Measures, TokenPairsUp;
  }

  method MeasureTokens(a: seq<AnnotatedSentence>, b: seq<AnnotatedSentence>)
    returns (ds: seq<Dimension>, ghost all: seq<seq<Labels2>>)
    requires forall x :: x in AllPlaced(a) ==> Found(b, x)
    ensures MeasuresTokens(ds, all, AllPlaced(a), b, 6)
  {
    hide Found, TokenPairsUp, Measures, AllPlaced;
    ds, all := [], [];
    for i := 0 to |TOKEN_FIELDS|
      invariant MeasuresTokens(ds, all, AllPlaced(a), b, i)
    {
      var pairs := TokenPairs(a, b, TOKEN_FIELDS[i]);
      var d := MeasureDimension(pairs.value);
      OneMoreDimension(ds, all, AllPlaced(a), b, i, d, pairs.value);
      ds, all := ds + [d], all + [pairs.value];
    }
  }

  lemma EightOf(a: seq<AnnotatedSentence>, b: seq<AnnotatedSentence>, d0: Dimension, d1: Dimension, ds: seq<Dimension>,
                p0: seq<Labels2>, p1: seq<Labels2>, all: seq<seq<Labels2>>)
    requires SentencePairsUp(p0, a, b, StructurallyAcceptable) && SentencePairsUp(p1, a, b, CompletePredicate)
    requires Measures(d0, p0) && Measures(d1, p1) && MeasuresTokens(ds, all, AllPlaced(a), b, 6)
    ensures EightPairs([p0, p1] + all, a, b) && MeasuresAll([d0, d1] + ds, [p0, p1] + all)
  {
    hide Measures, TokenPairsUp, SentencePairsUp, AllPlaced;
    var ds', all' := [d0, d1] + ds, [p0, p1] + all;
    forall i | 0 <= i < 6 ensures TokenPairsUp(all'[i + 2], AllPlaced(a), b, TOKEN_FIELDS[i]) {
      assert all'[i + 2] == all[i];
    }
    forall i | 0 <= i < 8 ensures Measures(ds'[i], all'[i]) {
      if i >= 2 {
        assert ds'[i] == ds[i - 2] && all'[i] == all[i - 2];
      }
    }
  }

  method MeasureDimensions(a: seq<AnnotatedSentence>, b: seq<AnnotatedSentence>)
    returns (ds: seq<Dimension>, ghost all: seq<seq<Labels2>>)
    requires Comparable(a, b)
    ensures EightPairs(all, a, b) && MeasuresAll(ds, all)
  {
    LookupsSucceed(a, b);
    hide *;
    var first := SentencePairs(a, b, StructurallyAcceptable);
    var second := SentencePairs(a, b, CompletePredicate);
    var d0 := MeasureDimension(first.value);
    var d1 := MeasureDimension(second.value);
    var rest;
    ghost var restPairs;
    rest, restPairs := MeasureTokens(a, b);
    EightOf(a, b, d0, d1, rest, first.value, second.value, restPairs);
    ds, all := [d0, d1] + rest, [first.value, second.value] + restPairs;
  }

  /** The eight dimensions and their means; it throws exactly on annotations that cannot be
      compared. */
  method ComputeIndependentAgreement(a: seq<AnnotatedSentence>, b: seq<AnnotatedSentence>)
    returns (metrics: Option<Metrics>, ghost all: seq<seq<Labels2>>)
    ensures metrics.Some? <==> Comparable(a, b)
    ensures metrics.Some? ==> EightPairs(all, a, b) && MeasuresAll(metrics.value.dimensions, all)
    ensures metrics.Some? ==> Summarises(metrics.value)
  {
    hide Comparable, EightPairs, MeasuresAll, Measures;
    var ok := AssertComparableCoverage(a, b);
    if !ok {
      return None, [];
    }
    var ds: seq<Dimension>;
    ds, all := MeasureDimensions(a, b);
    EightDimensions(ds, all, a, b);
    var rawValues: seq<real> := [];
    var kappas: seq<real> := [];
    var unitCount, exact := 0, true;
    NoDimensions();
    for i := 0 to |ds|
      invariant rawValues == RawValues(ds[..i]) && kappas == DefinedKappas(ds[..i]) && unitCount == Units(ds[..i])
      invariant exact <==> forall k :: 0 <= k < i ==> ds[k].disagreementCount == 0
    {
      assert ds[..i + 1][..i] == ds[..i];
      rawValues := rawValues + [ds[i].rawAgreement];
      if ds[i].cohenKappa.Some? {
        kappas := kappas + [ds[i].cohenKappa.value];
      }
      unitCount := unitCount + ds[i].unitCount;
      exact := exact && ds[i].disagreementCount == 0;
    }
    assert ds[..|ds|] == ds;
    var raw := Average(rawValues);
    var kappa := None;
    if |kappas| > 0 {
      var mean := Average(kappas);
      kappa := Some(mean);
    }
    metrics := Some(Metrics(unitCount, exact, raw, kappa, ds));
  }

  lemma EightDimensions(ds: seq<Dimension>, all: seq<seq<Labels2>>, a: seq<AnnotatedSentence>, b: seq<AnnotatedSentence>)
    requires EightPairs(all, a, b) && MeasuresAll(ds, all)
    ensures |ds| == 8
  {
  }

  lemma NoDimensions()
    ensures RawValues([]) == [] && DefinedKappas([]) == [] && Units([]) == 0
  {
  }

  function RawValues(ds: seq<Dimension>): (xs: seq<real>)
    ensures |xs| == |ds| && forall i :: 0 <= i < |ds| ==> xs[i] == ds[i].rawAgreement
  {
    if |ds| == 0 then [] else RawValues(ds[..|ds| - 1]) + [ds[|ds| - 1].rawAgreement]
  }

  function DefinedKappas(ds: seq<Dimension>): seq<real> {
    if |ds| == 0 then []
    else
      var before := DefinedKappas(ds[..|ds| - 1]);
      match ds[|ds| - 1].cohenKappa
      case None => before
      case Some(k) => before + [k]
  }

  function Units(ds: seq<Dimension>): nat {
    if |ds| == 0 then 0 else Units(ds[..|ds| - 1]) + ds[|ds| - 1].unitCount
  }

  /** The summary says of the dimensions what it should. */
  ghost predicate Summarises(m: Metrics) {
    var raws, kappas := RawValues(m.dimensions), DefinedKappas(m.dimensions);
    && |m.dimensions| == 8
    && m.unitCount == Units(m.dimensions)
    && (m.exactAgreement <==> forall i :: 0 <= i < |m.dimensions| ==> m.dimensions[i].disagreementCount == 0)
    && m.macroRawAgreement == Sum(raws) / |raws| as real
    && m.macroDefinedKappa == if |kappas| > 0 then Some(Sum(kappas) / |kappas| as real) else None
  }

  // ---- What the agreement means

  lemma {:induction false} KappasWithin(ds: seq<Dimension>, low: real)
    requires forall i :: 0 <= i < |ds| && ds[i].cohenKappa.Some? ==> low <= ds[i].cohenKappa.value <= 1.0
    ensures forall k :: k in DefinedKappas(ds) ==> low <= k <= 1.0
  {
    if |ds| > 0 {
      KappasWithin(ds[..|ds| - 1], low);
    }
  }

  /** The means are agreements and kappas again; on exact agreement both are 1. */
  lemma MacroBounds(m: Metrics, all: seq<seq<Labels2>>)
    requires MeasuresAll(m.dimensions, all) && Summarises(m)
    ensures 0.0 <= m.macroRawAgreement <= 1.0
    ensures m.macroDefinedKappa.Some? ==> -1.0 <= m.macroDefinedKappa.value <= 1.0
    ensures m.exactAgreement ==> m.macroRawAgreement == 1.0
                                 && (m.macroDefinedKappa.Some? ==> m.macroDefinedKappa.value == 1.0)
  {
    var ds := m.dimensions;
    forall i | 0 <= i < |ds|
      ensures 0.0 <= ds[i].rawAgreement <= 1.0 && (ds[i].cohenKappa.Some? ==> -1.0 <= ds[i].cohenKappa.value <= 1.0)
      ensures ds[i].disagreementCount == 0 ==> ds[i].rawAgreement == 1.0 && (ds[i].cohenKappa.Some? ==> ds[i].cohenKappa.value == 1.0)
    {
      MeasuredExactly(ds[i], all[i]);
    }
    hide MeasuresAll, Measures, DefinedKappas, RawValues, Sum;
    var low := if m.exactAgreement then 1.0 else -1.0;
    var lowRaw := if m.exactAgreement then 1.0 else 0.0;
    KappasWithin(ds, low);
    MeanWithin(RawValues(ds), lowRaw, 1.0);
    if |DefinedKappas(ds)| > 0 {
      MeanWithin(DefinedKappas(ds), low, 1.0);
    }
  }

  datatype Policy = Policy(minimumRawAgreement: real, minimumDefinedKappa: real, undefinedKappaFallback: string)

  predicate AgreementPolicyPassed(m: Metrics, policy: Policy) {
    if m.macroRawAgreement < policy.minimumRawAgreement then false
    else if m.macroDefinedKappa.None? then policy.undefinedKappaFallback == "raw-agreement"
    else m.macroDefinedKappa.value >= policy.minimumDefinedKappa
  }

  /** Exact agreement passes every policy that a packet may carry, when the policy falls back
      on the raw agreement. */
  lemma ExactAgreementPasses(m: Metrics, all: seq<seq<Labels2>>, policy: Policy)
    requires MeasuresAll(m.dimensions, all) && Summarises(m) && m.exactAgreement
    requires policy.minimumRawAgreement <= 1.0 && policy.minimumDefinedKappa <= 1.0
    requires policy.undefinedKappaFallback == "raw-agreement"
    ensures AgreementPolicyPassed(m, policy)
  {
    MacroBounds(m, all);
  }

  // ---- Exact agreement is agreement on every unit

  lemma {:induction false} TokensOnce(id: string, ts: seq<AnnotatedToken>)
    requires DistinctPlaces(TokenPlaces(id, ts))
    ensures DistinctTokens(ts)
  {
    if |ts| > 0 {
      var rest := TokenPlaces(id, ts[1..]);
      PlaceSuffix([AtToken(id, ts[0].tokenId)], rest);
      TokensOnce(id, ts[1..]);
      TokenPlaceIn(id, ts[1..], AtToken(id, ts[0].tokenId));
      assert forall k :: 0 < k < |ts| ==> ts[k] == ts[1..][k - 1];
    }
  }

  lemma PlaceSuffix(a: seq<Place>, b: seq<Place>)
    requires DistinctPlaces(a + b)
    ensures DistinctPlaces(a) && DistinctPlaces(b) && forall p :: p in a ==> p !in b
  {
    assert forall i :: 0 <= i < |a| ==> (a + b)[i] == a[i];
    assert forall i :: 0 <= i < |b| ==> (a + b)[|a| + i] == b[i];
  }

  lemma {:induction false} SentencesOnce(ss: seq<AnnotatedSentence>)
    requires DistinctPlaces(Places(ss))
    ensures DistinctAnnotated(ss) && forall i :: 0 <= i < |ss| ==> DistinctTokens(ss[i].tokens)
  {
    if |ss| > 0 {
      hide DistinctTokens;
      var p, mine, rest := AtSentence(ss[0].sentenceId), TokenPlaces(ss[0].sentenceId, ss[0].tokens), Places(ss[1..]);
      PlaceSuffix([p] + mine, rest);
      PlaceSuffix([p], mine);
      TokensOnce(ss[0].sentenceId, ss[0].tokens);
      SentencesOnce(ss[1..]);
      PlaceIn(ss[1..], p);
      assert p in [p] + mine;
      assert forall k :: 0 < k < |ss| ==> ss[k] == ss[1..][k - 1];
    }
  }

  /** An annotation gives a unit one value at most. */
  lemma SaysOnce(ss: seq<AnnotatedSentence>, u: Unit, v: Label, w: Label)
    requires DistinctPlaces(Places(ss)) && Says(ss, u, v) && Says(ss, u, w)
    ensures v == w
  {
    SentencesOnce(ss);
    hide TokenValue, SentenceValue;
  }

  ghost predicate SentenceFieldSame(a: seq<AnnotatedSentence>, b: seq<AnnotatedSentence>, f: SentenceField) {
    forall id, v :: Says(a, OfSentence(id, f), v) ==> Says(b, OfSentence(id, f), v)
  }

  ghost predicate TokenFieldSame(a: seq<AnnotatedSentence>, b: seq<AnnotatedSentence>, f: TokenField) {
    forall id, t, v :: Says(a, OfToken(id, t, f), v) ==> Says(b, OfToken(id, t, f), v)
  }

  lemma SentencePairsAgree(pairs: seq<Labels2>, a: seq<AnnotatedSentence>, b: seq<AnnotatedSentence>, f: SentenceField)
    requires SentencePairsUp(pairs, a, b, f) && DistinctPlaces(Places(b))
    ensures (forall p :: p in pairs ==> p.0 == p.1)
            <==> SentenceFieldSame(a, b, f)
  {
    hide Places, SentenceValue;
    if forall p :: p in pairs ==> p.0 == p.1 {
      forall id, v | Says(a, OfSentence(id, f), v) ensures Says(b, OfSentence(id, f), v) {
        var i :| 0 <= i < |a| && a[i].sentenceId == id && SentenceValue(a[i], f) == v;
        assert SentencePair(pairs[i], a[i], b, f) && pairs[i] in pairs;
      }
    }
    if SentenceFieldSame(a, b, f) {
      forall i | 0 <= i < |pairs| ensures pairs[i].0 == pairs[i].1 {
        assert SentencePair(pairs[i], a[i], b, f);
        assert Says(a, OfSentence(a[i].sentenceId, f), pairs[i].0);
        SaysOnce(b, OfSentence(a[i].sentenceId, f), pairs[i].0, pairs[i].1);
      }
    }
  }

  lemma TokenPairsAgree(pairs: seq<Labels2>, a: seq<AnnotatedSentence>, b: seq<AnnotatedSentence>, f: TokenField)
    requires TokenPairsUp(pairs, AllPlaced(a), b, f) && DistinctPlaces(Places(b))
    ensures (forall p :: p in pairs ==> p.0 == p.1)
            <==> TokenFieldSame(a, b, f)
  {
    hide Places, AllPlaced, TokenValue;
    var xs := AllPlaced(a);
    if forall p :: p in pairs ==> p.0 == p.1 {
      forall id, t, v | Says(a, OfToken(id, t, f), v) ensures Says(b, OfToken(id, t, f), v) {
        var j, k :| 0 <= j < |a| && 0 <= k < |a[j].tokens| && a[j].sentenceId == id
                    && a[j].tokens[k].tokenId == t && TokenValue(a[j].tokens[k], f) == v;
        PlacedIn(a, Placed(id, a[j].tokens[k]));
        assert Placed(id, a[j].tokens[k]) in xs;
        var i :| 0 <= i < |xs| && xs[i] == Placed(id, a[j].tokens[k]);
        assert TokenPair(pairs[i], xs[i], b, f) && pairs[i] in pairs;
      }
    }
    if TokenFieldSame(a, b, f) {
      forall i | 0 <= i < |pairs| ensures pairs[i].0 == pairs[i].1 {
        assert TokenPair(pairs[i], xs[i], b, f);
        PlacedIn(a, xs[i]);
        assert Says(a, OfToken(xs[i].sentenceId, xs[i].token.tokenId, f), pairs[i].0);
        SaysOnce(b, OfToken(xs[i].sentenceId, xs[i].token.tokenId, f), pairs[i].0, pairs[i].1);
      }
    }
  }

  ghost predicate TokenFieldSameAt(a: seq<AnnotatedSentence>, b: seq<AnnotatedSentence>, i: nat)
    requires i < 6
  {
    TokenFieldSame(a, b, TOKEN_FIELDS[i])
  }

  ghost predicate TokenDimensionExact(ds: seq<Dimension>, i: nat)
    requires |ds| == 8 && i < 6
  {
    ds[i + 2].disagreementCount == 0
  }

  lemma EveryField(a: seq<AnnotatedSentence>, b: seq<AnnotatedSentence>)
    ensures (forall u, v :: Says(a, u, v) ==> Says(b, u, v)) <==>
              && SentenceFieldSame(a, b, StructurallyAcceptable) && SentenceFieldSame(a, b, CompletePredicate)
              && forall i :: 0 <= i < 6 ==> TokenFieldSameAt(a, b, i)
  {
    hide Says;
    if && SentenceFieldSame(a, b, StructurallyAcceptable) && SentenceFieldSame(a, b, CompletePredicate)
       && forall i :: 0 <= i < 6 ==> TokenFieldSameAt(a, b, i) {
      forall u, v | Says(a, u, v) ensures Says(b, u, v) {
        match u
        case OfSentence(id, f) =>
          assert f == StructurallyAcceptable || f == CompletePredicate;
        case OfToken(id, t, f) =>
          var i := FieldIndex(f);
          assert TokenFieldSameAt(a, b, i);
      }
    }
  }

  /** Exact agreement: the second annotator says of every unit what the first says. */
  lemma ExactAgreementMeansSame(m: Metrics, all: seq<seq<Labels2>>, a: seq<AnnotatedSentence>, b: seq<AnnotatedSentence>)
    requires Comparable(a, b) && EightPairs(all, a, b) && MeasuresAll(m.dimensions, all) && Summarises(m)
    ensures m.exactAgreement <==> forall u, v :: Says(a, u, v) ==> Says(b, u, v)
  {
    ExactDimensions(m.dimensions, all, a, b);
    EveryField(a, b);
    ExactIs(m);
    hide *;
  }

  lemma ExactIs(m: Metrics)
    requires Summarises(m)
    ensures |m.dimensions| == 8
    ensures m.exactAgreement <==>
              && m.dimensions[0].disagreementCount == 0 && m.dimensions[1].disagreementCount == 0
              && forall i :: 0 <= i < 6 ==> TokenDimensionExact(m.dimensions, i)
  {
    hide RawValues, DefinedKappas, Units, Sum;
    var ds := m.dimensions;
    if forall i :: 0 <= i < 6 ==> TokenDimensionExact(ds, i) {
      forall i | 2 <= i < 8 ensures ds[i].disagreementCount == 0 {
        assert TokenDimensionExact(ds, i - 2);
      }
    }
  }

  lemma ExactDimensions(ds: seq<Dimension>, all: seq<seq<Labels2>>, a: seq<AnnotatedSentence>, b: seq<AnnotatedSentence>)
    requires Comparable(a, b) && EightPairs(all, a, b) && MeasuresAll(ds, all)
    ensures |ds| == 8
    ensures ds[0].disagreementCount == 0 <==> SentenceFieldSame(a, b, StructurallyAcceptable)
    ensures ds[1].disagreementCount == 0 <==> SentenceFieldSame(a, b, CompletePredicate)
    ensures forall i :: 0 <= i < 6 ==> (TokenDimensionExact(ds, i) <==> TokenFieldSameAt(a, b, i))
  {
    hide Measures, SentencePairsUp, TokenPairsUp, AllPlaced, Places, SentenceFieldSame, TokenFieldSame;
    MeasuredExactly(ds[0], all[0]);
    MeasuredExactly(ds[1], all[1]);
    SentencePairsAgree(all[0], a, b, StructurallyAcceptable);
    SentencePairsAgree(all[1], a, b, CompletePredicate);
    forall i | 0 <= i < 6 ensures TokenDimensionExact(ds, i) <==> TokenFieldSameAt(a, b, i) {
      MeasuredExactly(ds[i + 2], all[i + 2]);
      TokenPairsAgree(all[i + 2], a, b, TOKEN_FIELDS[i]);
    }
  }
}
