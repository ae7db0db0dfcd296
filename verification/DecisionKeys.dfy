/** The units that a decision settles, and the string keys under which they are looked up. */
module DecisionKeys {
  import opened Options
  import opened Text
  import opened Evidence

  /** The JSON text of a scalar, up to its injectivity. */
  datatype Label = NullLabel | BoolLabel(b: bool) | IntLabel(n: int) | TextLabel(s: string)

  function OfBool(v: Option<bool>): Label {
    match v case None => NullLabel case Some(b) => BoolLabel(b)
  }

  function OfInt(v: Option<int>): Label {
    match v case None => NullLabel case Some(n) => IntLabel(n)
  }

  function OfText(v: Option<string>): Label {
    match v case None => NullLabel case Some(s) => TextLabel(s)
  }

  datatype SentenceField = StructurallyAcceptable | CompletePredicate
  datatype TokenField =
    UniversalPartOfSpeech | HeadTokenId | DependencyRelation | IrabHeadTokenId | IrabCategory | IrabNotApplicable

  function SentenceValue(s: AnnotatedSentence, f: SentenceField): Label {
    match f
    case StructurallyAcceptable => OfBool(s.structurallyAcceptable)
    case CompletePredicate => OfBool(s.completePredicate)
  }

  function TokenValue(t: AnnotatedToken, f: TokenField): Label {
    match f
    case UniversalPartOfSpeech => OfText(t.universalPartOfSpeech)
    case HeadTokenId => OfInt(t.headTokenId)
    case DependencyRelation => OfText(t.dependencyRelation)
    case IrabHeadTokenId => OfInt(t.irabHeadTokenId)
    case IrabCategory => OfText(t.irabCategory)
    case IrabNotApplicable => OfBool(t.irabNotApplicable)
  }

  function SentenceFieldName(f: SentenceField): string {
    match f
    case StructurallyAcceptable => "structurallyAcceptable"
    case CompletePredicate => "completePredicate"
  }

  function TokenFieldName(f: TokenField): string {
    match f
    case UniversalPartOfSpeech => "universalPartOfSpeech"
    case HeadTokenId => "headTokenId"
    case DependencyRelation => "dependencyRelation"
    case IrabHeadTokenId => "irabHeadTokenId"
    case IrabCategory => "irabCategory"
    case IrabNotApplicable => "irabNotApplicable"
  }

  // ---- Keys

  /** One decision: a field of a sentence, or of a token of a sentence. */
  datatype Unit =
    | OfSentence(sentenceId: string, sentenceField: SentenceField)
    | OfToken(sentenceId: string, tokenId: int, tokenField: TokenField)

  function TokenPlace(sentenceId: string, tokenId: int): string {
    sentenceId + ":" + DecimalInt(tokenId)
  }

  function KeyOf(u: Unit): string {
    match u
    case OfSentence(id, f) => id + ":" + SentenceFieldName(f)
    case OfToken(id, t, f) => TokenPlace(id, t) + ":" + TokenFieldName(f)
  }

  function LastOr(b: string): char {
    if |b| == 0 then ':' else b[|b| - 1]
  }

  lemma EndOfKey(a: string, b: string)
    ensures var s := a + ":" + b; s[|s| - 1] == LastOr(b) && (|b| == 0 ==> s[..|s| - 1] == a)
    ensures |b| > 0 ==> (a + ":" + b)[..|a + ":" + b| - 1] == a + ":" + b[..|b| - 1]
    ensures ':' !in b ==> (LastOr(b) == ':' <==> |b| == 0)
  {
  }

  /** What follows the last colon tells two keys apart; colons in identifiers do no harm. */
  lemma {:induction false} LastColon(a: string, b: string, a': string, b': string)
    requires ':' !in b && ':' !in b' && a + ":" + b == a' + ":" + b'
    ensures a == a' && b == b'
    decreases |b|
  {
    EndOfKey(a, b);
    EndOfKey(a', b');
    if |b| > 0 {
      LastColon(a, b[..|b| - 1], a', b'[..|b'| - 1]);
      assert b == b[..|b| - 1] + [b[|b| - 1]] && b' == b'[..|b'| - 1] + [b'[|b'| - 1]];
    }
  }

  lemma PlacesDiffer(id: string, t: int, id': string, t': int)
    requires TokenPlace(id, t) == TokenPlace(id', t')
    ensures id == id' && t == t'
  {
    hide DecimalInt;
    assert forall i :: 0 <= i < |DecimalInt(t)| ==> DecimalInt(t)[i] != ':';
    assert forall i :: 0 <= i < |DecimalInt(t')| ==> DecimalInt(t')[i] != ':';
    LastColon(id, DecimalInt(t), id', DecimalInt(t'));
    DecimalIntInjective(t, t');
  }

  lemma SentenceFieldNames(f: SentenceField, g: SentenceField, h: TokenField)
    ensures ':' !in SentenceFieldName(f)
    ensures SentenceFieldName(f) == SentenceFieldName(g) ==> f == g
    ensures SentenceFieldName(f) != TokenFieldName(h)
  {
    SentenceInitial(f);
    SentenceInitial(g);
    TokenInitial(h);
    hide SentenceFieldName, TokenFieldName;
  }

  lemma SentenceInitial(f: SentenceField)
    ensures var s := SentenceFieldName(f); |s| > 0 && ':' !in s && s[0] == if f == StructurallyAcceptable then 's' else 'c'
  {
  }

  lemma TokenInitial(f: TokenField)
    ensures |TokenFieldName(f)| > 0 && TokenFieldName(f)[0] != 's' && TokenFieldName(f)[0] != 'c'
  {
  }

  function TokenNameLength(f: TokenField): nat {
    match f
    case UniversalPartOfSpeech => 21
    case HeadTokenId => 11
    case DependencyRelation => 18
    case IrabHeadTokenId => 15
    case IrabCategory => 12
    case IrabNotApplicable => 17
  }

  lemma TokenNameLengthIs(f: TokenField)
    ensures |TokenFieldName(f)| == TokenNameLength(f) && ':' !in TokenFieldName(f)
  {
  }

  lemma TokenFieldNames(f: TokenField, g: TokenField)
    ensures ':' !in TokenFieldName(f)
    ensures TokenFieldName(f) == TokenFieldName(g) ==> f == g
  {
    TokenNameLengthIs(f);
    TokenNameLengthIs(g);
    hide TokenFieldName;
  }

  /** Different units have different keys. */
  lemma KeysNeverCollide(u: Unit, v: Unit)
    requires KeyOf(u) == KeyOf(v)
    ensures u == v
  {
    hide TokenPlace, SentenceFieldName, TokenFieldName;
    match (u, v)
    case (OfSentence(a, f), OfSentence(b, g)) =>
      SentenceFieldNames(f, g, HeadTokenId);
      SentenceFieldNames(g, f, HeadTokenId);
      LastColon(a, SentenceFieldName(f), b, SentenceFieldName(g));
    case (OfSentence(a, f), OfToken(b, t, g)) =>
      SentenceFieldNames(f, f, g);
      TokenFieldNames(g, g);
      LastColon(a, SentenceFieldName(f), TokenPlace(b, t), TokenFieldName(g));
      assert false;
    case (OfToken(b, t, g), OfSentence(a, f)) =>
      SentenceFieldNames(f, f, g);
      TokenFieldNames(g, g);
      LastColon(a, SentenceFieldName(f), TokenPlace(b, t), TokenFieldName(g));
      assert false;
    case (OfToken(a, s, f), OfToken(b, t, g)) =>
      TokenFieldNames(f, g);
      TokenFieldNames(g, f);
      LastColon(TokenPlace(a, s), TokenFieldName(f), TokenPlace(b, t), TokenFieldName(g));
      PlacesDiffer(a, s, b, t);
  }

  /** The keys of coverage: "sentence:" and "token:" never meet. */
  function SentenceKey(id: string): string {
    "sentence:" + id
  }

  function TokenKey(id: string, t: int): string {
    "token:" + TokenPlace(id, t)
  }

  lemma CoverageKeysNeverCollide(id: string, id': string, t: int, t': int)
    ensures SentenceKey(id) == SentenceKey(id') ==> id == id'
    ensures TokenKey(id, t) == TokenKey(id', t') ==> id == id' && t == t'
    ensures SentenceKey(id) != TokenKey(id', t')
  {
    hide TokenPlace;
    assert SentenceKey(id)[9..] == id && SentenceKey(id')[9..] == id';
    assert TokenKey(id, t)[6..] == TokenPlace(id, t) && TokenKey(id', t')[6..] == TokenPlace(id', t');
    assert SentenceKey(id)[0] == 's' && TokenKey(id', t')[0] == 't';
    if TokenKey(id, t) == TokenKey(id', t') {
      PlacesDiffer(id, t, id', t');
    }
  }
}
