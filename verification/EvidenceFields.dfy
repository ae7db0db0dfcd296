/** What the comparisons of annotations and decisions say, read on the records' own fields. */
module EvidenceFields {
  import opened Options
  import opened Evidence
  import opened EvidenceParts
  import opened EvidenceRoots
  import opened DecisionKeys
  import N = NovelDecisions
  import I = IndependentAgreement

  // ---- The values of the fields

  /** Two tokens have the same value for a field exactly when that field of theirs is the same. */
  lemma TokenValueIs(x: AnnotatedToken, y: AnnotatedToken, f: TokenField)
    ensures TokenValue(x, f) == TokenValue(y, f) <==>
              match f
              case UniversalPartOfSpeech => x.universalPartOfSpeech == y.universalPartOfSpeech
              case HeadTokenId => x.headTokenId == y.headTokenId
              case DependencyRelation => x.dependencyRelation == y.dependencyRelation
              case IrabHeadTokenId => x.irabHeadTokenId == y.irabHeadTokenId
              case IrabCategory => x.irabCategory == y.irabCategory
              case IrabNotApplicable => x.irabNotApplicable == y.irabNotApplicable
  {
  }

  lemma SentenceValueIs(x: AnnotatedSentence, y: AnnotatedSentence, f: SentenceField)
    ensures SentenceValue(x, f) == SentenceValue(y, f) <==>
              match f
              case StructurallyAcceptable => x.structurallyAcceptable == y.structurallyAcceptable
              case CompletePredicate => x.completePredicate == y.completePredicate
  {
  }

  lemma TokenValuesFix(x: AnnotatedToken, y: AnnotatedToken)
    ensures (forall f :: TokenValue(x, f) == TokenValue(y, f)) <==> AgreeOnToken(x, y)
  {
    TokenValueIs(x, y, UniversalPartOfSpeech);
    TokenValueIs(x, y, HeadTokenId);
    TokenValueIs(x, y, DependencyRelation);
    TokenValueIs(x, y, IrabHeadTokenId);
    TokenValueIs(x, y, IrabCategory);
    TokenValueIs(x, y, IrabNotApplicable);
    forall f | AgreeOnToken(x, y) ensures TokenValue(x, f) == TokenValue(y, f) {
      TokenValueIs(x, y, f);
    }
  }

  lemma SentenceValuesFix(x: AnnotatedSentence, y: AnnotatedSentence)
    ensures (forall f :: SentenceValue(x, f) == SentenceValue(y, f)) <==> AgreeOnSentence(x, y)
  {
    SentenceValueIs(x, y, StructurallyAcceptable);
    SentenceValueIs(x, y, CompletePredicate);
    forall f | AgreeOnSentence(x, y) ensures SentenceValue(x, f) == SentenceValue(y, f) {
      SentenceValueIs(x, y, f);
    }
  }

  // ---- Exact agreement

  /** Counterparts agree: the same two decisions on a sentence and the same six on a token. */
  ghost predicate FieldsAgree(a: seq<AnnotatedSentence>, b: seq<AnnotatedSentence>) {
    forall i, k :: 0 <= i < |a| && 0 <= k < |b| && a[i].sentenceId == b[k].sentenceId ==>
      && AgreeOnSentence(a[i], b[k])
      && forall j, l :: 0 <= j < |a[i].tokens| && 0 <= l < |b[k].tokens| && a[i].tokens[j].tokenId == b[k].tokens[l].tokenId ==>
           AgreeOnToken(a[i].tokens[j], b[k].tokens[l])
  }

  lemma SameSaid(a: seq<AnnotatedSentence>, b: seq<AnnotatedSentence>, i: nat, k: nat)
    requires I.Comparable(a, b) && forall u, v :: N.Says(a, u, v) ==> N.Says(b, u, v)
    requires i < |a| && k < |b| && a[i].sentenceId == b[k].sentenceId
    ensures AgreeOnSentence(a[i], b[k])
  {
    hide SentenceValue, I.Places, I.SamePlaces;
    forall f ensures SentenceValue(a[i], f) == SentenceValue(b[k], f) {
      var u := OfSentence(a[i].sentenceId, f);
      assert N.Says(a, u, SentenceValue(a[i], f)) && N.Says(b, u, SentenceValue(b[k], f));
      I.SaysOnce(b, u, SentenceValue(a[i], f), SentenceValue(b[k], f));
    }
    SentenceValuesFix(a[i], b[k]);
  }

  lemma SameTokenSaid(a: seq<AnnotatedSentence>, b: seq<AnnotatedSentence>, i: nat, k: nat, j: nat, l: nat)
    requires I.Comparable(a, b) && forall u, v :: N.Says(a, u, v) ==> N.Says(b, u, v)
    requires i < |a| && k < |b| && a[i].sentenceId == b[k].sentenceId
    requires j < |a[i].tokens| && l < |b[k].tokens| && a[i].tokens[j].tokenId == b[k].tokens[l].tokenId
    ensures AgreeOnToken(a[i].tokens[j], b[k].tokens[l])
  {
    hide TokenValue, I.Places, I.SamePlaces, AgreeOnToken;
    var x, y := a[i].tokens[j], b[k].tokens[l];
    forall f ensures TokenValue(x, f) == TokenValue(y, f) {
      var u := OfToken(a[i].sentenceId, x.tokenId, f);
      assert N.Says(a, u, TokenValue(x, f)) && N.Says(b, u, TokenValue(y, f));
      I.SaysOnce(b, u, TokenValue(x, f), TokenValue(y, f));
    }
    TokenValuesFix(x, y);
  }

  lemma AgreedIsSaid(a: seq<AnnotatedSentence>, b: seq<AnnotatedSentence>, u: Unit, v: Label)
    requires I.Comparable(a, b) && FieldsAgree(a, b) && N.Says(a, u, v)
    ensures N.Says(b, u, v)
  {
    hide TokenValue, SentenceValue, I.Places, AgreeOnToken, AgreeOnSentence;
    match u
    case OfSentence(id, f) =>
      var i :| 0 <= i < |a| && a[i].sentenceId == id && SentenceValue(a[i], f) == v;
      I.PlaceIn(a, I.AtSentence(id));
      I.PlaceIn(b, I.AtSentence(id));
      var k :| 0 <= k < |b| && b[k].sentenceId == id;
      SentenceValuesFix(a[i], b[k]);
    case OfToken(id, t, f) =>
      var i, j :| 0 <= i < |a| && 0 <= j < |a[i].tokens| && a[i].sentenceId == id
                  && a[i].tokens[j].tokenId == t && TokenValue(a[i].tokens[j], f) == v;
      I.PlaceIn(a, I.AtToken(id, t));
      I.PlaceIn(b, I.AtToken(id, t));
      var k, l :| 0 <= k < |b| && 0 <= l < |b[k].tokens| && b[k].sentenceId == id && b[k].tokens[l].tokenId == t;
      TokenValuesFix(a[i].tokens[j], b[k].tokens[l]);
  }

  /** Exact agreement holds exactly when counterpart sentences have the same two fields and
      counterpart tokens the same six. */
  lemma ExactAgreementOnFields(m: I.Metrics, all: seq<seq<I.Labels2>>, a: seq<AnnotatedSentence>, b: seq<AnnotatedSentence>)
    requires I.Comparable(a, b) && I.EightPairs(all, a, b) && I.MeasuresAll(m.dimensions, all) && I.Summarises(m)
    ensures m.exactAgreement <==> FieldsAgree(a, b)
  {
    I.ExactAgreementMeansSame(m, all, a, b);
    hide I.Comparable, I.EightPairs, I.MeasuresAll, I.Summarises, N.Says, AgreeOnToken, AgreeOnSentence;
    if m.exactAgreement {
      forall i, k | 0 <= i < |a| && 0 <= k < |b| && a[i].sentenceId == b[k].sentenceId
        ensures AgreeOnSentence(a[i], b[k])
        ensures forall j, l :: 0 <= j < |a[i].tokens| && 0 <= l < |b[k].tokens| && a[i].tokens[j].tokenId == b[k].tokens[l].tokenId ==>
                  AgreeOnToken(a[i].tokens[j], b[k].tokens[l])
      {
        SameSaid(a, b, i, k);
        forall j, l | 0 <= j < |a[i].tokens| && 0 <= l < |b[k].tokens| && a[i].tokens[j].tokenId == b[k].tokens[l].tokenId
          ensures AgreeOnToken(a[i].tokens[j], b[k].tokens[l])
        {
          SameTokenSaid(a, b, i, k, j, l);
        }
      }
    }
    if FieldsAgree(a, b) {
      forall u, v | N.Says(a, u, v) ensures N.Says(b, u, v) {
        AgreedIsSaid(a, b, u, v);
      }
    }
  }

  /** Changing one field changes the value of that field, and of no other. */
  lemma OneFieldChanges(t: AnnotatedToken, f: TokenField, text: Option<string>, n: Option<int>, b: Option<bool>)
    ensures TokenValue(t.(universalPartOfSpeech := text), f) == if f == UniversalPartOfSpeech then OfText(text) else TokenValue(t, f)
    ensures TokenValue(t.(headTokenId := n), f) == if f == HeadTokenId then OfInt(n) else TokenValue(t, f)
    ensures TokenValue(t.(dependencyRelation := text), f) == if f == DependencyRelation then OfText(text) else TokenValue(t, f)
    ensures TokenValue(t.(irabHeadTokenId := n), f) == if f == IrabHeadTokenId then OfInt(n) else TokenValue(t, f)
    ensures TokenValue(t.(irabCategory := text), f) == if f == IrabCategory then OfText(text) else TokenValue(t, f)
    ensures TokenValue(t.(irabNotApplicable := b), f) == if f == IrabNotApplicable then OfBool(b) else TokenValue(t, f)
    ensures TokenValue(t.(tokenId := 0, note := text), f) == TokenValue(t, f)
  {
  }

  lemma OneSentenceFieldChanges(s: AnnotatedSentence, f: SentenceField, b: Option<bool>)
    ensures SentenceValue(s.(structurallyAcceptable := b), f) == if f == StructurallyAcceptable then OfBool(b) else SentenceValue(s, f)
    ensures SentenceValue(s.(completePredicate := b), f) == if f == CompletePredicate then OfBool(b) else SentenceValue(s, f)
    ensures SentenceValue(s.(note := None, tokens := []), f) == SentenceValue(s, f)
  {
  }

  // ---- The eight dimensions

  lemma SentenceDimension(pairs: seq<I.Labels2>, a: seq<AnnotatedSentence>, b: seq<AnnotatedSentence>, f: SentenceField, i: nat, k: nat)
    requires I.SentencePairsUp(pairs, a, b, f) && DistinctAnnotated(b)
    requires i < |a| && k < |b| && a[i].sentenceId == b[k].sentenceId
    ensures |pairs| == |a| && pairs[i] == (SentenceValue(a[i], f), SentenceValue(b[k], f))
  {
    hide SentenceValue;
    assert I.SentencePair(pairs[i], a[i], b, f);
  }

  lemma TokenDimension(pairs: seq<I.Labels2>, xs: seq<I.Placed>, b: seq<AnnotatedSentence>, f: TokenField, i: nat, k: nat, l: nat)
    requires I.TokenPairsUp(pairs, xs, b, f) && DistinctAnnotated(b)
    requires i < |xs| && k < |b| && l < |b[k].tokens| && DistinctTokens(b[k].tokens)
    requires xs[i].sentenceId == b[k].sentenceId && xs[i].token.tokenId == b[k].tokens[l].tokenId
    ensures |pairs| == |xs| && pairs[i] == (TokenValue(xs[i].token, f), TokenValue(b[k].tokens[l], f))
  {
    hide TokenValue;
    assert I.TokenPair(pairs[i], xs[i], b, f);
  }

  /** Each dimension pairs up its own field of counterpart sentences. */
  lemma SentenceDimensions(all: seq<seq<I.Labels2>>, a: seq<AnnotatedSentence>, b: seq<AnnotatedSentence>, i: nat, k: nat)
    requires I.Comparable(a, b) && I.EightPairs(all, a, b)
    requires i < |a| && k < |b| && a[i].sentenceId == b[k].sentenceId
    ensures |all[0]| == |all[1]| == |a|
    ensures all[0][i] == (OfBool(a[i].structurallyAcceptable), OfBool(b[k].structurallyAcceptable))
    ensures all[1][i] == (OfBool(a[i].completePredicate), OfBool(b[k].completePredicate))
  {
    I.SentencesOnce(b);
    hide I.Places, I.AllPlaced;
    SentenceDimension(all[0], a, b, StructurallyAcceptable, i, k);
    SentenceDimension(all[1], a, b, CompletePredicate, i, k);
  }

  lemma TokenValuesAre(t: AnnotatedToken)
    ensures TokenValue(t, UniversalPartOfSpeech) == OfText(t.universalPartOfSpeech) && TokenValue(t, HeadTokenId) == OfInt(t.headTokenId)
    ensures TokenValue(t, DependencyRelation) == OfText(t.dependencyRelation) && TokenValue(t, IrabHeadTokenId) == OfInt(t.irabHeadTokenId)
    ensures TokenValue(t, IrabCategory) == OfText(t.irabCategory) && TokenValue(t, IrabNotApplicable) == OfBool(t.irabNotApplicable)
  {
  }

  lemma SixDimensions(all: seq<seq<I.Labels2>>, a: seq<AnnotatedSentence>, b: seq<AnnotatedSentence>)
    requires I.EightPairs(all, a, b)
    ensures |all| == 8
    ensures I.TokenPairsUp(all[2], I.AllPlaced(a), b, UniversalPartOfSpeech)
    ensures I.TokenPairsUp(all[3], I.AllPlaced(a), b, HeadTokenId)
    ensures I.TokenPairsUp(all[4], I.AllPlaced(a), b, DependencyRelation)
    ensures I.TokenPairsUp(all[5], I.AllPlaced(a), b, IrabHeadTokenId)
    ensures I.TokenPairsUp(all[6], I.AllPlaced(a), b, IrabCategory)
    ensures I.TokenPairsUp(all[7], I.AllPlaced(a), b, IrabNotApplicable)
  {
    hide I.TokenPairsUp, I.SentencePairsUp;
    assert I.TokenPairsUp(all[0 + 2], I.AllPlaced(a), b, N.TOKEN_FIELDS[0]);
    assert I.TokenPairsUp(all[1 + 2], I.AllPlaced(a), b, N.TOKEN_FIELDS[1]);
    assert I.TokenPairsUp(all[2 + 2], I.AllPlaced(a), b, N.TOKEN_FIELDS[2]);
    assert I.TokenPairsUp(all[3 + 2], I.AllPlaced(a), b, N.TOKEN_FIELDS[3]);
    assert I.TokenPairsUp(all[4 + 2], I.AllPlaced(a), b, N.TOKEN_FIELDS[4]);
    assert I.TokenPairsUp(all[5 + 2], I.AllPlaced(a), b, N.TOKEN_FIELDS[5]);
  }

  /** Each dimension pairs up its own field of counterpart tokens. */
  lemma TokenDimensions(all: seq<seq<I.Labels2>>, a: seq<AnnotatedSentence>, b: seq<AnnotatedSentence>, i: nat, k: nat, l: nat)
    requires I.Comparable(a, b) && I.EightPairs(all, a, b)
    requires var xs := I.AllPlaced(a);
             i < |xs| && k < |b| && l < |b[k].tokens|
             && xs[i].sentenceId == b[k].sentenceId && xs[i].token.tokenId == b[k].tokens[l].tokenId
    ensures |all| == 8 && |all[2]| == |all[3]| == |all[4]| == |all[5]| == |all[6]| == |all[7]| == |I.AllPlaced(a)|
    ensures var x, y := I.AllPlaced(a)[i].token, b[k].tokens[l];
            && all[2][i] == (OfText(x.universalPartOfSpeech), OfText(y.universalPartOfSpeech))
            && all[3][i] == (OfInt(x.headTokenId), OfInt(y.headTokenId))
            && all[4][i] == (OfText(x.dependencyRelation), OfText(y.dependencyRelation))
            && all[5][i] == (OfInt(x.irabHeadTokenId), OfInt(y.irabHeadTokenId))
            && all[6][i] == (OfText(x.irabCategory), OfText(y.irabCategory))
            && all[7][i] == (OfBool(x.irabNotApplicable), OfBool(y.irabNotApplicable))
  {
    I.SentencesOnce(b);
    SixDimensions(all, a, b);
    TokenValuesAre(I.AllPlaced(a)[i].token);
    TokenValuesAre(b[k].tokens[l]);
    hide I.Places, I.AllPlaced, I.EightPairs, I.TokenPairsUp, I.Comparable, I.SamePlaces, TokenValue, DistinctAnnotated, DistinctTokens;
    var xs := I.AllPlaced(a);
    TokenDimension(all[2], xs, b, UniversalPartOfSpeech, i, k, l);
    TokenDimension(all[3], xs, b, HeadTokenId, i, k, l);
    TokenDimension(all[4], xs, b, DependencyRelation, i, k, l);
    TokenDimension(all[5], xs, b, IrabHeadTokenId, i, k, l);
    TokenDimension(all[6], xs, b, IrabCategory, i, k, l);
    TokenDimension(all[7], xs, b, IrabNotApplicable, i, k, l);
  }

  // ---- Decisions that take every value from an annotator

  predicate TakesSentence(x: AnnotatedSentence, a: AnnotatedSentence, b: AnnotatedSentence) {
    && (x.structurallyAcceptable == a.structurallyAcceptable || x.structurallyAcceptable == b.structurallyAcceptable)
    && (x.completePredicate == a.completePredicate || x.completePredicate == b.completePredicate)
  }

  predicate TakesToken(x: AnnotatedToken, a: AnnotatedToken, b: AnnotatedToken) {
    && (x.universalPartOfSpeech == a.universalPartOfSpeech || x.universalPartOfSpeech == b.universalPartOfSpeech)
    && (x.headTokenId == a.headTokenId || x.headTokenId == b.headTokenId)
    && (x.dependencyRelation == a.dependencyRelation || x.dependencyRelation == b.dependencyRelation)
    && (x.irabHeadTokenId == a.irabHeadTokenId || x.irabHeadTokenId == b.irabHeadTokenId)
    && (x.irabCategory == a.irabCategory || x.irabCategory == b.irabCategory)
    && (x.irabNotApplicable == a.irabNotApplicable || x.irabNotApplicable == b.irabNotApplicable)
  }

  lemma TakesSentenceIs(x: AnnotatedSentence, a: AnnotatedSentence, b: AnnotatedSentence)
    ensures (forall f :: SentenceValue(x, f) == SentenceValue(a, f) || SentenceValue(x, f) == SentenceValue(b, f)) <==> TakesSentence(x, a, b)
  {
    if TakesSentence(x, a, b) {
      forall f ensures SentenceValue(x, f) == SentenceValue(a, f) || SentenceValue(x, f) == SentenceValue(b, f) {
        SentenceValueIs(x, a, f);
        SentenceValueIs(x, b, f);
      }
    } else {
      var f := if x.structurallyAcceptable != a.structurallyAcceptable && x.structurallyAcceptable != b.structurallyAcceptable
               then StructurallyAcceptable else CompletePredicate;
      SentenceValueIs(x, a, f);
      SentenceValueIs(x, b, f);
    }
  }

  lemma TakesTokenIs(x: AnnotatedToken, a: AnnotatedToken, b: AnnotatedToken)
    ensures (forall f :: TokenValue(x, f) == TokenValue(a, f) || TokenValue(x, f) == TokenValue(b, f)) <==> TakesToken(x, a, b)
  {
    hide TokenValue;
    if TakesToken(x, a, b) {
      forall f ensures TokenValue(x, f) == TokenValue(a, f) || TokenValue(x, f) == TokenValue(b, f) {
        TokenValueIs(x, a, f);
        TokenValueIs(x, b, f);
      }
    }
    if forall f :: TokenValue(x, f) == TokenValue(a, f) || TokenValue(x, f) == TokenValue(b, f) {
      TakesField(x, a, b, UniversalPartOfSpeech);
      TakesField(x, a, b, HeadTokenId);
      TakesField(x, a, b, DependencyRelation);
      TakesField(x, a, b, IrabHeadTokenId);
      TakesField(x, a, b, IrabCategory);
      TakesField(x, a, b, IrabNotApplicable);
    }
  }

  lemma TakesField(x: AnnotatedToken, a: AnnotatedToken, b: AnnotatedToken, f: TokenField)
    requires forall g :: TokenValue(x, g) == TokenValue(a, g) || TokenValue(x, g) == TokenValue(b, g)
    ensures match f
            case UniversalPartOfSpeech => x.universalPartOfSpeech == a.universalPartOfSpeech || x.universalPartOfSpeech == b.universalPartOfSpeech
            case HeadTokenId => x.headTokenId == a.headTokenId || x.headTokenId == b.headTokenId
            case DependencyRelation => x.dependencyRelation == a.dependencyRelation || x.dependencyRelation == b.dependencyRelation
            case IrabHeadTokenId => x.irabHeadTokenId == a.irabHeadTokenId || x.irabHeadTokenId == b.irabHeadTokenId
            case IrabCategory => x.irabCategory == a.irabCategory || x.irabCategory == b.irabCategory
            case IrabNotApplicable => x.irabNotApplicable == a.irabNotApplicable || x.irabNotApplicable == b.irabNotApplicable
  {
    TokenValueIs(x, a, f);
    TokenValueIs(x, b, f);
    hide TokenValue;
    assert TokenValue(x, f) == TokenValue(a, f) || TokenValue(x, f) == TokenValue(b, f);
  }

  /** Every field of the decision is that field of one of the two annotations. */
  ghost predicate TakesFields(a: seq<AnnotatedSentence>, b: seq<AnnotatedSentence>, final: seq<AnnotatedSentence>) {
    forall i, k, m :: 0 <= i < |final| && 0 <= k < |a| && 0 <= m < |b| && final[i].sentenceId == a[k].sentenceId == b[m].sentenceId ==>
      && TakesSentence(final[i], a[k], b[m])
      && forall j, l, n :: 0 <= j < |final[i].tokens| && 0 <= l < |a[k].tokens| && 0 <= n < |b[m].tokens|
                           && final[i].tokens[j].tokenId == a[k].tokens[l].tokenId == b[m].tokens[n].tokenId ==>
           TakesToken(final[i].tokens[j], a[k].tokens[l], b[m].tokens[n])
  }

  lemma EitherOrder(a: seq<AnnotatedSentence>, b: seq<AnnotatedSentence>, final: seq<AnnotatedSentence>)
    requires TakesFields(a, b, final)
    ensures TakesFields(b, a, final)
  {
  }

  /** An annotation whose units come once gives each of them one value. */
  lemma OneValue(ss: seq<AnnotatedSentence>, u: Unit, v: Label, w: Label)
    requires N.DistinctUnits(N.Entries(ss)) && N.Says(ss, u, v) && N.Says(ss, u, w)
    ensures v == w
  {
    N.EntriesSay(ss, N.Entry(u, v));
    N.EntriesSay(ss, N.Entry(u, w));
    var es := N.Entries(ss);
    hide N.Entries, N.Says;
    var i :| 0 <= i < |es| && es[i] == N.Entry(u, v);
    var k :| 0 <= k < |es| && es[k] == N.Entry(u, w);
  }

  ghost predicate TakesAll(a: seq<AnnotatedSentence>, b: seq<AnnotatedSentence>, final: seq<AnnotatedSentence>) {
    forall u, v :: N.Says(final, u, v) ==> N.Says(a, u, v) || N.Says(b, u, v)
  }

  lemma TakenSentence(a: seq<AnnotatedSentence>, b: seq<AnnotatedSentence>, final: seq<AnnotatedSentence>, i: nat, k: nat, m: nat)
    requires N.DistinctUnits(N.Entries(a)) && N.DistinctUnits(N.Entries(b)) && TakesAll(a, b, final)
    requires i < |final| && k < |a| && m < |b| && final[i].sentenceId == a[k].sentenceId == b[m].sentenceId
    ensures TakesSentence(final[i], a[k], b[m])
  {
    hide SentenceValue, N.Entries, N.DistinctUnits, TakesSentence;
    forall f ensures SentenceValue(final[i], f) == SentenceValue(a[k], f) || SentenceValue(final[i], f) == SentenceValue(b[m], f) {
      var u, v := OfSentence(final[i].sentenceId, f), SentenceValue(final[i], f);
      assert N.Says(final, u, v) && N.Says(a, u, SentenceValue(a[k], f)) && N.Says(b, u, SentenceValue(b[m], f));
      if N.Says(a, u, v) {
        OneValue(a, u, v, SentenceValue(a[k], f));
      } else {
        OneValue(b, u, v, SentenceValue(b[m], f));
      }
    }
    TakesSentenceIs(final[i], a[k], b[m]);
  }

  lemma TakenToken(a: seq<AnnotatedSentence>, b: seq<AnnotatedSentence>, final: seq<AnnotatedSentence>, i: nat, k: nat, m: nat,
                   j: nat, l: nat, n: nat)
    requires N.DistinctUnits(N.Entries(a)) && N.DistinctUnits(N.Entries(b)) && TakesAll(a, b, final)
    requires i < |final| && k < |a| && m < |b| && final[i].sentenceId == a[k].sentenceId == b[m].sentenceId
    requires j < |final[i].tokens| && l < |a[k].tokens| && n < |b[m].tokens|
    requires final[i].tokens[j].tokenId == a[k].tokens[l].tokenId == b[m].tokens[n].tokenId
    ensures TakesToken(final[i].tokens[j], a[k].tokens[l], b[m].tokens[n])
  {
    hide TokenValue, N.Entries, N.DistinctUnits, TakesToken;
    var x, y, z := final[i].tokens[j], a[k].tokens[l], b[m].tokens[n];
    forall f ensures TokenValue(x, f) == TokenValue(y, f) || TokenValue(x, f) == TokenValue(z, f) {
      var u, v := OfToken(final[i].sentenceId, x.tokenId, f), TokenValue(x, f);
      assert N.Says(final, u, v) && N.Says(a, u, TokenValue(y, f)) && N.Says(b, u, TokenValue(z, f));
      if N.Says(a, u, v) {
        OneValue(a, u, v, TokenValue(y, f));
      } else {
        OneValue(b, u, v, TokenValue(z, f));
      }
    }
    TakesTokenIs(x, y, z);
  }

  lemma TakenIsSaid(a: seq<AnnotatedSentence>, b: seq<AnnotatedSentence>, final: seq<AnnotatedSentence>, u: Unit, v: Label)
    requires N.SameUnits(final, a) && N.SameUnits(final, b) && TakesFields(a, b, final) && N.Says(final, u, v)
    ensures N.Says(a, u, v) || N.Says(b, u, v)
  {
    hide N.Says, TakesFields;
    assert N.HasUnit(final, u) && N.HasUnit(a, u) && N.HasUnit(b, u);
    var va :| N.Says(a, u, va);
    var vb :| N.Says(b, u, vb);
    if u.OfSentence? {
      TakenSentenceIsSaid(a, b, final, u, v, va, vb);
    } else {
      TakenTokenIsSaid(a, b, final, u, v, va, vb);
    }
  }

  lemma TakenSentenceIsSaid(a: seq<AnnotatedSentence>, b: seq<AnnotatedSentence>, final: seq<AnnotatedSentence>, u: Unit,
                            v: Label, va: Label, vb: Label)
    requires u.OfSentence? && TakesFields(a, b, final) && N.Says(final, u, v) && N.Says(a, u, va) && N.Says(b, u, vb)
    ensures N.Says(a, u, v) || N.Says(b, u, v)
  {
    hide SentenceValue, TakesToken, TakesSentence;
    var id, f := u.sentenceId, u.sentenceField;
    var i :| 0 <= i < |final| && final[i].sentenceId == id && SentenceValue(final[i], f) == v;
    var k :| 0 <= k < |a| && a[k].sentenceId == id && SentenceValue(a[k], f) == va;
    var m :| 0 <= m < |b| && b[m].sentenceId == id && SentenceValue(b[m], f) == vb;
    TakesSentenceIs(final[i], a[k], b[m]);
  }

  lemma TakenTokenIsSaid(a: seq<AnnotatedSentence>, b: seq<AnnotatedSentence>, final: seq<AnnotatedSentence>, u: Unit,
                         v: Label, va: Label, vb: Label)
    requires u.OfToken? && TakesFields(a, b, final) && N.Says(final, u, v) && N.Says(a, u, va) && N.Says(b, u, vb)
    ensures N.Says(a, u, v) || N.Says(b, u, v)
  {
    hide TokenValue, TakesToken, TakesSentence;
    var id, t, f := u.sentenceId, u.tokenId, u.tokenField;
    var i, j :| 0 <= i < |final| && 0 <= j < |final[i].tokens| && final[i].sentenceId == id
                && final[i].tokens[j].tokenId == t && TokenValue(final[i].tokens[j], f) == v;
    var k, l :| 0 <= k < |a| && 0 <= l < |a[k].tokens| && a[k].sentenceId == id
                && a[k].tokens[l].tokenId == t && TokenValue(a[k].tokens[l], f) == va;
    var m, n :| 0 <= m < |b| && 0 <= n < |b[m].tokens| && b[m].sentenceId == id
                && b[m].tokens[n].tokenId == t && TokenValue(b[m].tokens[n], f) == vb;
    TakesTokenIs(final[i].tokens[j], a[k].tokens[l], b[m].tokens[n]);
  }

  lemma TakesAllIsFields(a: seq<AnnotatedSentence>, b: seq<AnnotatedSentence>, final: seq<AnnotatedSentence>)
    requires N.DistinctUnits(N.Entries(a)) && N.DistinctUnits(N.Entries(b)) && N.SameUnits(final, a) && N.SameUnits(final, b)
    ensures TakesAll(a, b, final) <==> TakesFields(a, b, final)
  {
    hide N.Entries, N.DistinctUnits, N.SameUnits, N.Says, TakesToken, TakesSentence;
    if TakesAll(a, b, final) {
      forall i, k, m | 0 <= i < |final| && 0 <= k < |a| && 0 <= m < |b| && final[i].sentenceId == a[k].sentenceId == b[m].sentenceId
        ensures TakesSentence(final[i], a[k], b[m])
        ensures forall j, l, n :: 0 <= j < |final[i].tokens| && 0 <= l < |a[k].tokens| && 0 <= n < |b[m].tokens|
                                  && final[i].tokens[j].tokenId == a[k].tokens[l].tokenId == b[m].tokens[n].tokenId ==>
                  TakesToken(final[i].tokens[j], a[k].tokens[l], b[m].tokens[n])
      {
        TakenSentence(a, b, final, i, k, m);
        forall j, l, n | 0 <= j < |final[i].tokens| && 0 <= l < |a[k].tokens| && 0 <= n < |b[m].tokens|
                         && final[i].tokens[j].tokenId == a[k].tokens[l].tokenId == b[m].tokens[n].tokenId
          ensures TakesToken(final[i].tokens[j], a[k].tokens[l], b[m].tokens[n])
        {
          TakenToken(a, b, final, i, k, m, j, l, n);
        }
      }
    }
    if TakesFields(a, b, final) {
      forall u, v | N.Says(final, u, v) ensures N.Says(a, u, v) || N.Says(b, u, v) {
        TakenIsSaid(a, b, final, u, v);
      }
    }
  }

  /** The count of novel decisions is zero exactly when every field of the decision is that
      field of one of the two annotations. */
  lemma NothingNovelOnFields(a: seq<AnnotatedSentence>, b: seq<AnnotatedSentence>, final: seq<AnnotatedSentence>)
    requires N.DistinctUnits(N.Entries(a)) && N.DistinctUnits(N.Entries(b)) && N.SameUnits(final, a) && N.SameUnits(final, b)
    ensures |N.NovelUnits(a, b, N.Entries(final))| == 0 <==> TakesFields(a, b, final)
  {
    hide N.Entries, N.DistinctUnits, N.SameUnits, N.Says, N.NovelUnits, TakesFields;
    N.NothingNovel(a, b, final);
    TakesAllIsFields(a, b, final);
  }
}
