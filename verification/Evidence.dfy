/** The evidence of a review: the packet of sentences, the annotations of it, the decision
    between two annotations and the ratification of a decision. Fields keep one type each. */
module Evidence {
  import opened Options

  datatype Identity = Identity(
    taskId: string, taskVersion: int, packetId: string, holdoutId: string, protocolId: string,
    guidelineVersion: string, dataVersion: string, protocolVersion: string)

  datatype Token = Token(id: int, form: string)
  datatype Sentence = Sentence(sentenceId: string, text: string, tokens: seq<Token>)

  /** `metricPolicy` is the canonical JSON text of the policy. */
  datatype Packet = Packet(
    identity: Identity,
    metricPolicy: string,
    releaseCandidateId: Option<string>,
    pilotOnly: Option<bool>,
    developerVisible: Option<bool>,
    parserPredictionsExcluded: Option<bool>,
    derivedFromExcludedCorpus: Option<bool>,
    holdoutManifestSha256: Option<string>,
    sentences: seq<Sentence>,
    instructions: Option<seq<string>>)

  datatype AnnotatedToken = AnnotatedToken(
    tokenId: int,
    universalPartOfSpeech: Option<string>,
    headTokenId: Option<int>,
    dependencyRelation: Option<string>,
    irabHeadTokenId: Option<int>,
    irabCategory: Option<string>,
    irabNotApplicable: Option<bool>,
    note: Option<string>)

  datatype AnnotatedSentence = AnnotatedSentence(
    sentenceId: string,
    structurallyAcceptable: Option<bool>,
    completePredicate: Option<bool>,
    note: Option<string>,
    tokens: seq<AnnotatedToken>)

  /** The six decisions on a token, which leave out its number and its note. */
  predicate AgreeOnToken(x: AnnotatedToken, y: AnnotatedToken) {
    && x.universalPartOfSpeech == y.universalPartOfSpeech && x.headTokenId == y.headTokenId
    && x.dependencyRelation == y.dependencyRelation && x.irabHeadTokenId == y.irabHeadTokenId
    && x.irabCategory == y.irabCategory && x.irabNotApplicable == y.irabNotApplicable
  }

  /** The two decisions on a sentence as a whole. */
  predicate AgreeOnSentence(x: AnnotatedSentence, y: AnnotatedSentence) {
    x.structurallyAcceptable == y.structurallyAcceptable && x.completePredicate == y.completePredicate
  }

  datatype Annotation = Annotation(
    packetMerkleRoot: string,
    identity: Identity,
    annotatorSlot: string,
    annotatorPseudonym: Option<string>,
    isHuman: Option<bool>,
    isSynthetic: Option<bool>,
    independentFromImplementationTeam: Option<bool>,
    blindToParserInternals: Option<bool>,
    parserPredictionsViewed: Option<bool>,
    sentences: seq<AnnotatedSentence>)

  datatype Decision = Decision(
    packetMerkleRoot: string,
    annotationAMerkleRoot: string,
    annotationBMerkleRoot: string,
    identity: Identity,
    annotationASlot: string,
    annotationBSlot: string,
    adjudicatorSlot: string,
    adjudicatorPseudonym: Option<string>,
    adjudicatorIsHuman: Option<bool>,
    adjudicatorIsSynthetic: Option<bool>,
    independentFromImplementationTeam: Option<bool>,
    blindToParserInternals: Option<bool>,
    parserPredictionsViewed: Option<bool>,
    sentences: seq<AnnotatedSentence>)

  datatype Ratification = Ratification(
    taskId: string, taskVersion: int, packetId: string, holdoutId: string, protocolVersion: string,
    packetMerkleRoot: string,
    primaryReceiptId: Option<string>,
    primaryAdjudicationMerkleRoot: string,
    reviewerSlot: string,
    reviewerPseudonym: Option<string>,
    reviewerIsHuman: Option<bool>,
    reviewerIsSynthetic: Option<bool>,
    independentFromImplementationTeam: Option<bool>,
    decision: string,
    rationale: string)

  // ---- Packets

  predicate IdentifierStart(c: char) {
    'A' <= c <= 'Z' || 'a' <= c <= 'z' || '0' <= c <= '9'
  }

  predicate Identifier(s: string) {
    && 1 <= |s| <= 160 && IdentifierStart(s[0])
    && forall i :: 1 <= i < |s| ==> IdentifierStart(s[i]) || s[i] in "._:-"
  }

  predicate IdentityOk(id: Identity) {
    && Identifier(id.taskId) && id.taskVersion >= 1 && Identifier(id.packetId) && Identifier(id.holdoutId)
    && Identifier(id.protocolId) && Identifier(id.guidelineVersion) && Identifier(id.dataVersion)
    && Identifier(id.protocolVersion)
  }

  predicate SentenceOk(s: Sentence) {
    && s.sentenceId != "" && s.text != "" && |s.tokens| > 0
    && forall i :: 0 <= i < |s.tokens| ==> s.tokens[i].id == i + 1 && s.tokens[i].form != ""
  }

  ghost predicate DistinctSentences(ss: seq<Sentence>) {
    forall i, k :: 0 <= i < k < |ss| ==> ss[i].sentenceId != ss[k].sentenceId
  }

  ghost predicate PacketOk(p: Packet) {
    && IdentityOk(p.identity)
    && p.parserPredictionsExcluded == Some(true) && p.derivedFromExcludedCorpus != Some(true)
    && |p.sentences| > 0
    && (forall i :: 0 <= i < |p.sentences| ==> SentenceOk(p.sentences[i]))
    && DistinctSentences(p.sentences)
  }

  method ValidatePacket(p: Packet) returns (ok: bool)
    ensures ok <==> PacketOk(p)
  {
    var id := p.identity;
    if !Identifier(id.taskId) || id.taskVersion < 1 || !Identifier(id.packetId) || !Identifier(id.holdoutId)
       || !Identifier(id.protocolId) || !Identifier(id.guidelineVersion) || !Identifier(id.dataVersion)
       || !Identifier(id.protocolVersion) {
      return false;
    }
    if p.parserPredictionsExcluded != Some(true)
       || p.derivedFromExcludedCorpus == Some(true) || |p.sentences| == 0 {
      return false;
    }
    var sentenceIds: set<string> := {};
    for i := 0 to |p.sentences|
      invariant sentenceIds == set k | 0 <= k < i :: p.sentences[k].sentenceId
      invariant DistinctSentences(p.sentences[..i])
      invariant forall k :: 0 <= k < i ==> SentenceOk(p.sentences[k])
    {
      var s := p.sentences[i];
      if s.sentenceId == "" || s.text == "" || |s.tokens| == 0 {
        return false;
      }
      if s.sentenceId in sentenceIds {
        return false;
      }
      sentenceIds := sentenceIds + {s.sentenceId};
      for j := 0 to |s.tokens|
        invariant forall k :: 0 <= k < j ==> s.tokens[k].id == k + 1 && s.tokens[k].form != ""
      {
        if s.tokens[j].id != j + 1 || s.tokens[j].form == "" {
          return false;
        }
      }
    }
    assert p.sentences[..|p.sentences|] == p.sentences;
    return true;
  }

  // ---- Coverage: an annotation has exactly the sentences and tokens of the packet

  ghost predicate DistinctAnnotated(ss: seq<AnnotatedSentence>) {
    forall i, k :: 0 <= i < k < |ss| ==> ss[i].sentenceId != ss[k].sentenceId
  }

  ghost predicate DistinctTokens(ts: seq<AnnotatedToken>) {
    forall i, k :: 0 <= i < k < |ts| ==> ts[i].tokenId != ts[k].tokenId
  }

  /** The tokens 1 to n, each once. */
  ghost predicate NumberedTo(ts: seq<AnnotatedToken>, n: nat) {
    && |ts| == n && DistinctTokens(ts)
    && forall i :: 0 <= i < n ==> 1 <= ts[i].tokenId <= n
  }

  ghost predicate Annotates(a: AnnotatedSentence, s: Sentence) {
    a.sentenceId == s.sentenceId && NumberedTo(a.tokens, |s.tokens|)
  }

  ghost predicate Annotated(ss: seq<AnnotatedSentence>, s: Sentence) {
    exists k :: 0 <= k < |ss| && Annotates(ss[k], s)
  }

  ghost predicate Covers(p: Packet, ss: seq<AnnotatedSentence>) {
    && |ss| == |p.sentences| && DistinctAnnotated(ss)
    && forall i :: 0 <= i < |p.sentences| ==> Annotated(ss, p.sentences[i])
  }

  function TokenIds(ts: seq<Token>): (ids: set<int>)
    ensures forall k :: 0 <= k < |ts| ==> ts[k].id in ids
  {
    if |ts| == 0 then {} else TokenIds(ts[..|ts| - 1]) + {ts[|ts| - 1].id}
  }

  function AnnotatedIds(ts: seq<AnnotatedToken>): (ids: set<int>)
    ensures forall k :: 0 <= k < |ts| ==> ts[k].tokenId in ids
    ensures forall id :: id in ids ==> exists k :: 0 <= k < |ts| && ts[k].tokenId == id
  {
    if |ts| == 0 then {}
    else
      var before := AnnotatedIds(ts[..|ts| - 1]);
      assert forall k :: 0 <= k < |ts| - 1 ==> ts[..|ts| - 1][k] == ts[k];
      before + {ts[|ts| - 1].tokenId}
  }

  /** What the source's map of sentences by identifier holds. */
  ghost predicate Indexes(index: map<string, AnnotatedSentence>, ss: seq<AnnotatedSentence>) {
    && (forall k :: 0 <= k < |ss| ==> ss[k].sentenceId in index && index[ss[k].sentenceId] == ss[k])
    && (forall id :: id in index ==> exists k :: 0 <= k < |ss| && ss[k].sentenceId == id && index[id] == ss[k])
  }

  method ValidateTokens(source: Sentence, annotated: AnnotatedSentence) returns (ok: bool)
    requires SentenceOk(source)
    ensures ok <==> NumberedTo(annotated.tokens, |source.tokens|)
  {
    hide TokenIds, AnnotatedIds;
    var ts := annotated.tokens;
    if |ts| != |source.tokens| {
      return false;
    }
    var sourceTokenIds := TokenIds(source.tokens);
    NumberedIds(source.tokens);
    NoIds();
    var annotatedTokenIds: set<int> := {};
    for j := 0 to |ts|
      invariant annotatedTokenIds == AnnotatedIds(ts[..j]) && |annotatedTokenIds| == j
      invariant DistinctTokens(ts[..j])
      invariant forall k :: 0 <= k < j ==> 1 <= ts[k].tokenId <= |ts|
    {
      var id := ts[j].tokenId;
      if id in annotatedTokenIds {
        var k :| 0 <= k < j && ts[..j][k].tokenId == id;
        assert ts[k].tokenId == id;
        return false;
      }
      if id !in sourceTokenIds {
        return false;
      }
      OneMoreId(ts, j);
      annotatedTokenIds := annotatedTokenIds + {id};
    }
    assert ts[..|ts|] == ts;
    ok := |annotatedTokenIds| == |sourceTokenIds|;
  }

  lemma NoIds()
    ensures AnnotatedIds([]) == {}
  {
  }

  lemma OneMoreId(ts: seq<AnnotatedToken>, j: nat)
    requires j < |ts| && DistinctTokens(ts[..j]) && ts[j].tokenId !in AnnotatedIds(ts[..j])
    ensures AnnotatedIds(ts[..j + 1]) == AnnotatedIds(ts[..j]) + {ts[j].tokenId}
    ensures DistinctTokens(ts[..j + 1])
  {
    var s, s' := ts[..j], ts[..j + 1];
    assert s'[..j] == s;
    forall i, k | 0 <= i < k < |s'| ensures s'[i].tokenId != s'[k].tokenId {
      assert s'[i] == s[i];
      if k < j {
        assert s'[k] == s[k];
      }
    }
  }

  lemma {:induction false} NumberedIds(ts: seq<Token>)
    requires forall i :: 0 <= i < |ts| ==> ts[i].id == i + 1
    ensures forall x :: x in TokenIds(ts) <==> 1 <= x <= |ts|
    ensures |TokenIds(ts)| == |ts|
  {
    if |ts| > 0 {
      NumberedIds(ts[..|ts| - 1]);
    }
  }

  method IndexSentences(ss: seq<AnnotatedSentence>) returns (bySentence: Option<map<string, AnnotatedSentence>>)
    ensures bySentence.Some? <==> DistinctAnnotated(ss)
    ensures bySentence.Some? ==> Indexes(bySentence.value, ss)
  {
    var index: map<string, AnnotatedSentence> := map[];
    for k := 0 to |ss|
      invariant DistinctAnnotated(ss[..k]) && Indexes(index, ss[..k])
    {
      if ss[k].sentenceId in index {
        var i :| 0 <= i < k && ss[..k][i].sentenceId == ss[k].sentenceId;
        assert ss[i].sentenceId == ss[k].sentenceId;
        return None;
      }
      IndexesOneMore(index, ss, k);
      index := index[ss[k].sentenceId := ss[k]];
    }
    assert ss[..|ss|] == ss;
    return Some(index);
  }

  method ValidateAnnotationCoverage(p: Packet, ss: seq<AnnotatedSentence>) returns (ok: bool)
    requires PacketOk(p)
    ensures ok <==> Covers(p, ss)
  {
    hide NumberedTo, SentenceOk;
    if |ss| != |p.sentences| {
      return false;
    }
    var bySentence := IndexSentences(ss);
    if bySentence.None? {
      return false;
    }
    for i := 0 to |p.sentences|
      invariant forall j :: 0 <= j < i ==> Annotated(ss, p.sentences[j])
    {
      var source := p.sentences[i];
      if source.sentenceId !in bySentence.value {
        NotAnnotated(bySentence.value, ss, source);
        return false;
      }
      var annotated := bySentence.value[source.sentenceId];
      var tokensOk := ValidateTokens(source, annotated);
      IndexedIsOnly(bySentence.value, ss, source);
      if !tokensOk {
        return false;
      }
    }
    return true;
  }

  lemma NotAnnotated(index: map<string, AnnotatedSentence>, ss: seq<AnnotatedSentence>, s: Sentence)
    requires Indexes(index, ss) && s.sentenceId !in index
    ensures !Annotated(ss, s)
  {
  }

  lemma IndexedIsOnly(index: map<string, AnnotatedSentence>, ss: seq<AnnotatedSentence>, s: Sentence)
    requires Indexes(index, ss) && DistinctAnnotated(ss) && s.sentenceId in index
    ensures Annotated(ss, s) <==> NumberedTo(index[s.sentenceId].tokens, |s.tokens|)
  {
    hide NumberedTo;
    var k :| 0 <= k < |ss| && ss[k].sentenceId == s.sentenceId && index[s.sentenceId] == ss[k];
    if Annotated(ss, s) {
      var j :| 0 <= j < |ss| && Annotates(ss[j], s);
      assert j == k;
    } else {
      assert !Annotates(ss[k], s);
    }
  }

  lemma IndexesOneMore(index: map<string, AnnotatedSentence>, ss: seq<AnnotatedSentence>, k: nat)
    requires k < |ss| && Indexes(index, ss[..k]) && ss[k].sentenceId !in index
    ensures Indexes(index[ss[k].sentenceId := ss[k]], ss[..k + 1])
  {
    var s, s' := ss[..k], ss[..k + 1];
    var index' := index[ss[k].sentenceId := ss[k]];
    assert forall i :: 0 <= i < k ==> s[i] == s'[i];
    forall id | id in index'
      ensures exists j :: 0 <= j < |s'| && s'[j].sentenceId == id && index'[id] == s'[j]
    {
      if id in index {
        var j :| 0 <= j < |s| && s[j].sentenceId == id && index[id] == s[j];
        assert s'[j].sentenceId == id;
      } else {
        assert s'[k].sentenceId == id;
      }
    }
  }
}
