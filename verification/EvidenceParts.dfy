/** The parts that each root hashes, and why equal parts mean equal evidence. */
module EvidenceParts {
  import opened Options
  import opened Text
  import opened CanonicalEncoding
  import opened Evidence

  const PACKET_TAG := "adg-msa-adjudication-packet-root-v3"
  const ANNOTATION_TAG := "adg-msa-annotation-submission-root-v3"
  const DECISION_TAG := "adg-msa-adjudication-decision-root-v3"
  const RATIFICATION_TAG := "adg-msa-ratification-decision-root-v1"

  const PACKET_SCHEMA := "adg-msa-adjudication-packet-v3"
  const ANNOTATION_SCHEMA := "adg-msa-annotation-submission-v3"
  const ADJUDICATION_SCHEMA := "adg-msa-adjudication-decision-v3"
  const RATIFICATION_SCHEMA := "adg-msa-ratification-decision-v1"

  function OptStr(s: Option<string>): Value {
    match s case None => Null case Some(x) => Str(x)
  }

  function OptBool(b: Option<bool>): Value {
    match b case None => Null case Some(x) => Bool(x)
  }

  function OptInt(n: Option<int>): Value {
    match n case None => Null case Some(x) => Number(x)
  }

  function Texts(vs: seq<Value>): (parts: seq<Part>)
    ensures |parts| == |vs|
    ensures forall i :: 0 <= i < |vs| ==> parts[i] == TextOf(vs[i])
  {
    seq(|vs|, i requires 0 <= i < |vs| => TextOf(vs[i]))
  }

  // ---- The values, in the order in which they are added

  // Long runs of values are kept in groups of a few.

  function TaskValues(id: Identity): seq<Value> {
    [Str(id.taskId), Number(id.taskVersion), Str(id.packetId), Str(id.holdoutId)]
  }

  function VersionValues(id: Identity): seq<Value> {
    [Str(id.protocolId), Str(id.guidelineVersion), Str(id.dataVersion), Str(id.protocolVersion)]
  }

  function TokenValues(t: Token): seq<Value> {
    [Number(t.id), Str(t.form)]
  }

  function SentenceHead(s: Sentence): seq<Value> {
    [Str(s.sentenceId), Str(s.text), Number(|s.tokens|)]
  }

  function PacketTag(): seq<Value> {
    [Str(PACKET_TAG), Str(PACKET_SCHEMA)]
  }

  function PacketPolicy(p: Packet): seq<Value> {
    [Str(p.metricPolicy), OptStr(p.releaseCandidateId), OptBool(p.pilotOnly), OptBool(p.developerVisible)]
  }

  function PacketOrigin(p: Packet): seq<Value> {
    [OptBool(p.parserPredictionsExcluded), OptBool(p.derivedFromExcludedCorpus), OptStr(p.holdoutManifestSha256),
     Number(|p.sentences|)]
  }

  function PacketHead(p: Packet): seq<seq<Value>> {
    [PacketTag(), TaskValues(p.identity), VersionValues(p.identity), PacketPolicy(p), PacketOrigin(p)]
  }

  function AnnotatedTokenLeft(t: AnnotatedToken): seq<Value> {
    [Number(t.tokenId), OptStr(t.universalPartOfSpeech), OptInt(t.headTokenId), OptStr(t.dependencyRelation)]
  }

  function AnnotatedTokenRight(t: AnnotatedToken): seq<Value> {
    [OptInt(t.irabHeadTokenId), OptStr(t.irabCategory), OptBool(t.irabNotApplicable), OptStr(t.note)]
  }

  function AnnotatedHead(s: AnnotatedSentence): seq<Value> {
    [Str(s.sentenceId), OptBool(s.structurallyAcceptable), OptBool(s.completePredicate), OptStr(s.note),
     Number(|s.tokens|)]
  }

  function AnnotationTag(a: Annotation): seq<Value> {
    [Str(ANNOTATION_TAG), Str(ANNOTATION_SCHEMA), Str(a.packetMerkleRoot)]
  }

  function AnnotationPerson(a: Annotation): seq<Value> {
    [Str(a.annotatorSlot), OptStr(a.annotatorPseudonym), OptBool(a.isHuman), OptBool(a.isSynthetic)]
  }

  function AnnotationStance(a: Annotation): seq<Value> {
    [OptBool(a.independentFromImplementationTeam), OptBool(a.blindToParserInternals),
     OptBool(a.parserPredictionsViewed), Number(|a.sentences|)]
  }

  function AnnotationHead(a: Annotation): seq<seq<Value>> {
    [AnnotationTag(a), TaskValues(a.identity), VersionValues(a.identity), AnnotationPerson(a), AnnotationStance(a)]
  }

  function DecisionTag(d: Decision): seq<Value> {
    [Str(DECISION_TAG), Str(ADJUDICATION_SCHEMA), Str(d.packetMerkleRoot),
     Str(d.annotationAMerkleRoot), Str(d.annotationBMerkleRoot)]
  }

  function DecisionPerson(d: Decision): seq<Value> {
    [Str(d.annotationASlot), Str(d.annotationBSlot), Str(d.adjudicatorSlot), OptStr(d.adjudicatorPseudonym),
     OptBool(d.adjudicatorIsHuman)]
  }

  function DecisionStance(d: Decision): seq<Value> {
    [OptBool(d.adjudicatorIsSynthetic), OptBool(d.independentFromImplementationTeam),
     OptBool(d.blindToParserInternals), OptBool(d.parserPredictionsViewed), Number(|d.sentences|)]
  }

  function DecisionHead(d: Decision): seq<seq<Value>> {
    [DecisionTag(d), TaskValues(d.identity), VersionValues(d.identity), DecisionPerson(d), DecisionStance(d)]
  }

  function RatificationTag(r: Ratification): seq<Value> {
    [Str(RATIFICATION_TAG), Str(RATIFICATION_SCHEMA), Str(r.taskId), Number(r.taskVersion),
     Str(r.packetId)]
  }

  function RatificationSubject(r: Ratification): seq<Value> {
    [Str(r.holdoutId), Str(r.protocolVersion), Str(r.packetMerkleRoot), OptStr(r.primaryReceiptId)]
  }

  function RatificationPerson(r: Ratification): seq<Value> {
    [Str(r.primaryAdjudicationMerkleRoot), Str(r.reviewerSlot), OptStr(r.reviewerPseudonym), OptBool(r.reviewerIsHuman)]
  }

  function RatificationOutcome(r: Ratification): seq<Value> {
    [OptBool(r.reviewerIsSynthetic), OptBool(r.independentFromImplementationTeam), Str(r.decision),
     Str(Trimmed(r.rationale))]
  }

  function RatificationGroups(r: Ratification): seq<seq<Value>> {
    [RatificationTag(r), RatificationSubject(r), RatificationPerson(r), RatificationOutcome(r)]
  }

  function Laid(groups: seq<seq<Value>>): seq<Part> {
    if |groups| == 0 then [] else Texts(groups[0]) + Laid(groups[1..])
  }

  /** White space as String.prototype.trim removes it. */
  predicate IsSpace(c: char) {
    var n := c as int;
    || 0x09 <= n <= 0x0D || n == 0x20 || n == 0xA0 || n == 0x1680 || 0x2000 <= n <= 0x200A
    || n == 0x2028 || n == 0x2029 || n == 0x202F || n == 0x205F || n == 0x3000 || n == 0xFEFF
  }

  function Trimmed(s: string): string {
    if |s| > 0 && IsSpace(s[0]) then Trimmed(s[1..])
    else if |s| > 0 && IsSpace(s[|s| - 1]) then Trimmed(s[..|s| - 1])
    else s
  }

  predicate AllSpace(s: string) {
    forall i :: 0 <= i < |s| ==> IsSpace(s[i])
  }

  lemma TrimmedStep(s: string)
    ensures Trimmed(s) == if |s| > 0 && IsSpace(s[0]) then Trimmed(s[1..])
                          else if |s| > 0 && IsSpace(s[|s| - 1]) then Trimmed(s[..|s| - 1])
                          else s
  {
  }

  /** Trimming takes white space off both ends, all of it and nothing else. */
  lemma {:induction false} TrimmedSplits(s: string) returns (before: string, after: string)
    ensures s == before + Trimmed(s) + after && AllSpace(before) && AllSpace(after)
    ensures Trimmed(s) != "" ==> !IsSpace(Trimmed(s)[0]) && !IsSpace(Trimmed(s)[|Trimmed(s)| - 1])
    decreases |s|
  {
    TrimmedStep(s);
    hide IsSpace, Trimmed;
    if |s| > 0 && IsSpace(s[0]) {
      before, after := TrimmedSplits(s[1..]);
      before := [s[0]] + before;
      assert s == [s[0]] + s[1..];
    } else if |s| > 0 && IsSpace(s[|s| - 1]) {
      before, after := TrimmedSplits(s[..|s| - 1]);
      after := after + [s[|s| - 1]];
      assert s == s[..|s| - 1] + [s[|s| - 1]];
    } else {
      before, after := "", "";
      assert s == "" + s + "";
    }
  }

  /** Nothing is left exactly of a text of white space. */
  lemma TrimmedBlank(s: string)
    ensures Trimmed(s) == "" <==> AllSpace(s)
  {
    var before, after := TrimmedSplits(s);
    hide IsSpace, Trimmed;
    var t := Trimmed(s);
    if t == "" {
      assert s == before + after;
    } else {
      assert s[|before|] == t[0];
    }
  }

  // ---- The parts, with the counted lists laid out

  function TokensParts(ts: seq<Token>): seq<Part> {
    if |ts| == 0 then [] else Texts(TokenValues(ts[0])) + TokensParts(ts[1..])
  }

  function SentencesParts(ss: seq<Sentence>): seq<Part> {
    if |ss| == 0 then []
    else Texts(SentenceHead(ss[0])) + TokensParts(ss[0].tokens) + SentencesParts(ss[1..])
  }

  function InstructionsParts(xs: seq<string>): seq<Part> {
    if |xs| == 0 then [] else [Some(xs[0])] + InstructionsParts(xs[1..])
  }

  /** Missing instructions are written as none. */
  function Instructions(p: Packet): seq<string> {
    match p.instructions case None => [] case Some(xs) => xs
  }

  /** The same packet, except that missing and empty instructions are not told apart. */
  ghost predicate Alike(p: Packet, q: Packet) {
    p.(instructions := None) == q.(instructions := None) && Instructions(p) == Instructions(q)
  }

  function PacketParts(p: Packet): seq<Part> {
    Laid(PacketHead(p)) + (SentencesParts(p.sentences)
    + (Texts([Number(|Instructions(p)|)]) + InstructionsParts(Instructions(p))))
  }

  function AnnotatedTokensParts(ts: seq<AnnotatedToken>): seq<Part> {
    if |ts| == 0 then [] else Texts(AnnotatedTokenLeft(ts[0])) + Texts(AnnotatedTokenRight(ts[0])) + AnnotatedTokensParts(ts[1..])
  }

  function AnnotatedParts(ss: seq<AnnotatedSentence>): seq<Part> {
    if |ss| == 0 then []
    else Texts(AnnotatedHead(ss[0])) + AnnotatedTokensParts(ss[0].tokens) + AnnotatedParts(ss[1..])
  }

  function AnnotationParts(a: Annotation): seq<Part> {
    Laid(AnnotationHead(a)) + AnnotatedParts(a.sentences)
  }

  function DecisionParts(d: Decision): seq<Part> {
    Laid(DecisionHead(d)) + AnnotatedParts(d.sentences)
  }

  function RatificationParts(r: Ratification): seq<Part> {
    Laid(RatificationGroups(r))
  }

  // ---- What is written

  lemma LaidFive(a: seq<Value>, b: seq<Value>, c: seq<Value>, d: seq<Value>, e: seq<Value>)
    ensures Laid([a, b, c, d, e]) == Texts(a) + (Texts(b) + (Texts(c) + (Texts(d) + Texts(e))))
  {
    hide Texts;
    LaidFour(b, c, d, e);
    assert [a, b, c, d, e][1..] == [b, c, d, e];
  }

  lemma LaidFour(b: seq<Value>, c: seq<Value>, d: seq<Value>, e: seq<Value>)
    ensures Laid([b, c, d, e]) == Texts(b) + (Texts(c) + (Texts(d) + Texts(e)))
  {
    hide Texts;
    assert [b, c, d, e][1..] == [c, d, e] && [c, d, e][1..] == [d, e] && [d, e][1..] == [e] && [e][1..] == [];
    assert Laid([e]) == Texts(e) + Laid([]);
    assert Laid([d, e]) == Texts(d) + Laid([e]);
    assert Laid([c, d, e]) == Texts(c) + Laid([d, e]);
  }

  lemma IdentityTexts(id: Identity)
    ensures Texts(TaskValues(id)) == [Some(id.taskId), Some(DecimalInt(id.taskVersion)), Some(id.packetId), Some(id.holdoutId)]
    ensures Texts(VersionValues(id)) == [Some(id.protocolId), Some(id.guidelineVersion), Some(id.dataVersion), Some(id.protocolVersion)]
  {
    hide DecimalInt;
  }

  /** A missing truth value is a missing part. */
  function Truth(b: Option<bool>): Part {
    match b case None => None case Some(x) => Some(if x then "true" else "false")
  }

  lemma RatificationSubjectTexts(r: Ratification)
    ensures Texts(RatificationTag(r)) == [Some("adg-msa-ratification-decision-root-v1"), Some("adg-msa-ratification-decision-v1"),
                                          Some(r.taskId), Some(DecimalInt(r.taskVersion)), Some(r.packetId)]
    ensures Texts(RatificationSubject(r)) == [Some(r.holdoutId), Some(r.protocolVersion), Some(r.packetMerkleRoot), r.primaryReceiptId]
  {
    hide DecimalInt;
  }

  lemma RatificationPersonTexts(r: Ratification)
    ensures Texts(RatificationPerson(r)) == [Some(r.primaryAdjudicationMerkleRoot), Some(r.reviewerSlot), r.reviewerPseudonym,
                                             Truth(r.reviewerIsHuman)]
    ensures Texts(RatificationOutcome(r)) == [Truth(r.reviewerIsSynthetic), Truth(r.independentFromImplementationTeam),
                                              Some(r.decision), Some(Trimmed(r.rationale))]
  {
    hide Trimmed;
  }

  /** The parts of a ratification, one by one. */
  lemma PartsOfRatification(r: Ratification)
    ensures RatificationParts(r) ==
              [Some("adg-msa-ratification-decision-root-v1"), Some("adg-msa-ratification-decision-v1"),
               Some(r.taskId), Some(DecimalInt(r.taskVersion)), Some(r.packetId)]
              + ([Some(r.holdoutId), Some(r.protocolVersion), Some(r.packetMerkleRoot), r.primaryReceiptId]
              + ([Some(r.primaryAdjudicationMerkleRoot), Some(r.reviewerSlot), r.reviewerPseudonym, Truth(r.reviewerIsHuman)]
              + [Truth(r.reviewerIsSynthetic), Truth(r.independentFromImplementationTeam), Some(r.decision),
                 Some(Trimmed(r.rationale))]))
  {
    RatificationSubjectTexts(r);
    RatificationPersonTexts(r);
    LaidFour(RatificationTag(r), RatificationSubject(r), RatificationPerson(r), RatificationOutcome(r));
    hide Trimmed, DecimalInt, Texts, Laid, RatificationTag, RatificationSubject, RatificationPerson, RatificationOutcome, Truth;
  }

  lemma PacketTexts(p: Packet)
    ensures Texts(PacketTag()) == [Some("adg-msa-adjudication-packet-root-v3"), Some("adg-msa-adjudication-packet-v3")]
    ensures Texts(PacketPolicy(p)) == [Some(p.metricPolicy), p.releaseCandidateId, Truth(p.pilotOnly), Truth(p.developerVisible)]
    ensures Texts(PacketOrigin(p)) == [Truth(p.parserPredictionsExcluded), Truth(p.derivedFromExcludedCorpus),
                                       p.holdoutManifestSha256, Some(DecimalInt(|p.sentences|))]
  {
    hide DecimalInt;
  }

  /** The parts before the sentences of a packet. */
  lemma PartsOfPacketHead(p: Packet)
    ensures var id := p.identity;
            Laid(PacketHead(p)) ==
              [Some("adg-msa-adjudication-packet-root-v3"), Some("adg-msa-adjudication-packet-v3")]
              + ([Some(id.taskId), Some(DecimalInt(id.taskVersion)), Some(id.packetId), Some(id.holdoutId)]
              + ([Some(id.protocolId), Some(id.guidelineVersion), Some(id.dataVersion), Some(id.protocolVersion)]
              + ([Some(p.metricPolicy), p.releaseCandidateId, Truth(p.pilotOnly), Truth(p.developerVisible)]
              + [Truth(p.parserPredictionsExcluded), Truth(p.derivedFromExcludedCorpus), p.holdoutManifestSha256,
                 Some(DecimalInt(|p.sentences|))])))
  {
    PacketTexts(p);
    IdentityTexts(p.identity);
    LaidFive(PacketTag(), TaskValues(p.identity), VersionValues(p.identity), PacketPolicy(p), PacketOrigin(p));
    hide DecimalInt, Texts, Laid, TaskValues, VersionValues, PacketTag, PacketPolicy, PacketOrigin, Truth;
  }

  lemma AnnotationTexts(a: Annotation)
    ensures Texts(AnnotationTag(a)) == [Some("adg-msa-annotation-submission-root-v3"), Some("adg-msa-annotation-submission-v3"),
                                        Some(a.packetMerkleRoot)]
    ensures Texts(AnnotationPerson(a)) == [Some(a.annotatorSlot), a.annotatorPseudonym, Truth(a.isHuman), Truth(a.isSynthetic)]
    ensures Texts(AnnotationStance(a)) == [Truth(a.independentFromImplementationTeam), Truth(a.blindToParserInternals),
                                           Truth(a.parserPredictionsViewed), Some(DecimalInt(|a.sentences|))]
  {
    hide DecimalInt;
  }

  /** The parts before the sentences of an annotation. */
  lemma PartsOfAnnotationHead(a: Annotation)
    ensures var id := a.identity;
            Laid(AnnotationHead(a)) ==
              [Some("adg-msa-annotation-submission-root-v3"), Some("adg-msa-annotation-submission-v3"), Some(a.packetMerkleRoot)]
              + ([Some(id.taskId), Some(DecimalInt(id.taskVersion)), Some(id.packetId), Some(id.holdoutId)]
              + ([Some(id.protocolId), Some(id.guidelineVersion), Some(id.dataVersion), Some(id.protocolVersion)]
              + ([Some(a.annotatorSlot), a.annotatorPseudonym, Truth(a.isHuman), Truth(a.isSynthetic)]
              + [Truth(a.independentFromImplementationTeam), Truth(a.blindToParserInternals), Truth(a.parserPredictionsViewed),
                 Some(DecimalInt(|a.sentences|))])))
  {
    AnnotationTexts(a);
    IdentityTexts(a.identity);
    LaidFive(AnnotationTag(a), TaskValues(a.identity), VersionValues(a.identity), AnnotationPerson(a), AnnotationStance(a));
    hide DecimalInt, Texts, Laid, TaskValues, VersionValues, AnnotationTag, AnnotationPerson, AnnotationStance, Truth;
  }

  lemma DecisionTexts(d: Decision)
    ensures Texts(DecisionTag(d)) == [Some("adg-msa-adjudication-decision-root-v3"), Some("adg-msa-adjudication-decision-v3"),
                                      Some(d.packetMerkleRoot), Some(d.annotationAMerkleRoot), Some(d.annotationBMerkleRoot)]
    ensures Texts(DecisionPerson(d)) == [Some(d.annotationASlot), Some(d.annotationBSlot), Some(d.adjudicatorSlot),
                                         d.adjudicatorPseudonym, Truth(d.adjudicatorIsHuman)]
  {
  }

  lemma DecisionStanceTexts(d: Decision)
    ensures Texts(DecisionStance(d)) == [Truth(d.adjudicatorIsSynthetic), Truth(d.independentFromImplementationTeam),
                                         Truth(d.blindToParserInternals), Truth(d.parserPredictionsViewed),
                                         Some(DecimalInt(|d.sentences|))]
  {
    hide DecimalInt;
  }

  /** The parts before the sentences of a decision. */
  lemma PartsOfDecisionHead(d: Decision)
    ensures var id := d.identity;
            Laid(DecisionHead(d)) ==
              [Some("adg-msa-adjudication-decision-root-v3"), Some("adg-msa-adjudication-decision-v3"),
               Some(d.packetMerkleRoot), Some(d.annotationAMerkleRoot), Some(d.annotationBMerkleRoot)]
              + ([Some(id.taskId), Some(DecimalInt(id.taskVersion)), Some(id.packetId), Some(id.holdoutId)]
              + ([Some(id.protocolId), Some(id.guidelineVersion), Some(id.dataVersion), Some(id.protocolVersion)]
              + ([Some(d.annotationASlot), Some(d.annotationBSlot), Some(d.adjudicatorSlot), d.adjudicatorPseudonym,
                  Truth(d.adjudicatorIsHuman)]
              + [Truth(d.adjudicatorIsSynthetic), Truth(d.independentFromImplementationTeam),
                 Truth(d.blindToParserInternals), Truth(d.parserPredictionsViewed), Some(DecimalInt(|d.sentences|))])))
  {
    DecisionTexts(d);
    DecisionStanceTexts(d);
    IdentityTexts(d.identity);
    LaidFive(DecisionTag(d), TaskValues(d.identity), VersionValues(d.identity), DecisionPerson(d), DecisionStance(d));
    hide DecimalInt, Texts, Laid, TaskValues, VersionValues, DecisionTag, DecisionPerson, DecisionStance, Truth;
  }

  // ---- Equal texts of values of one type are equal values

  /** The two values may stand in one field. */
  predicate SameKind(a: Value, b: Value) {
    || a.Null? || b.Null? || (a.Bool? && b.Bool?) || (a.Number? && b.Number?) || (a.Str? && b.Str?)
  }

  lemma SameValue(a: Value, b: Value)
    requires TextOf(a) == TextOf(b) && SameKind(a, b)
    ensures a == b
  {
    if a.Number? && b.Number? {
      DecimalIntInjective(a.n, b.n);
    } else if a.Bool? && b.Bool? {
      assert "true"[0] != "false"[0];
    }
  }

  lemma SameValues(a: seq<Value>, b: seq<Value>)
    requires |a| == |b| && Texts(a) == Texts(b)
    requires forall i :: 0 <= i < |a| ==> SameKind(a[i], b[i])
    ensures a == b
  {
    forall i | 0 <= i < |a| ensures a[i] == b[i] {
      assert Texts(a)[i] == Texts(b)[i];
      SameValue(a[i], b[i]);
    }
  }

  /** Two concatenations with heads of one length fall apart in the same way. */
  lemma Apart<T>(a: seq<T>, b: seq<T>, rest: seq<T>, rest': seq<T>)
    requires |a| == |b| && a + rest == b + rest'
    ensures a == b && rest == rest'
  {
    assert a == (a + rest)[..|a|] && b == (b + rest')[..|b|];
    assert rest == (a + rest)[|a|..] && rest' == (b + rest')[|b|..];
  }

  lemma SameToken(s: Token, t: Token)
    requires Texts(TokenValues(s)) == Texts(TokenValues(t))
    ensures s == t
  {
    hide Texts;
    var a, b := TokenValues(s), TokenValues(t);
    SameValues(a, b);
    assert a[0] == b[0] && a[1] == b[1];
  }

  lemma {:induction false} TokensApart(a: seq<Token>, b: seq<Token>, rest: seq<Part>, rest': seq<Part>)
    requires |a| == |b| && TokensParts(a) + rest == TokensParts(b) + rest'
    ensures a == b && rest == rest'
  {
    hide Texts, TokenValues;
    if |a| == 0 {
      assert TokensParts(a) + rest == rest && TokensParts(b) + rest' == rest';
    } else {
      var x, y := Texts(TokenValues(a[0])), Texts(TokenValues(b[0]));
      TokenLength(a[0]);
      TokenLength(b[0]);
      assert TokensParts(a) + rest == x + (TokensParts(a[1..]) + rest);
      assert TokensParts(b) + rest' == y + (TokensParts(b[1..]) + rest');
      Apart(x, y, TokensParts(a[1..]) + rest, TokensParts(b[1..]) + rest');
      SameToken(a[0], b[0]);
      TokensApart(a[1..], b[1..], rest, rest');
      assert a == [a[0]] + a[1..] && b == [b[0]] + b[1..];
    }
  }

  lemma TokenLength(t: Token)
    ensures |Texts(TokenValues(t))| == 2
  {
  }

  lemma SameSentenceHead(s: Sentence, t: Sentence)
    requires Texts(SentenceHead(s)) == Texts(SentenceHead(t))
    ensures s.sentenceId == t.sentenceId && s.text == t.text && |s.tokens| == |t.tokens|
  {
    hide Texts;
    var a, b := SentenceHead(s), SentenceHead(t);
    SameValues(a, b);
    assert a[0] == b[0] && a[1] == b[1] && a[2] == b[2];
  }

  lemma SentenceHeadLength(s: Sentence)
    ensures |Texts(SentenceHead(s))| == 3
  {
  }

  lemma {:induction false} SentencesApart(a: seq<Sentence>, b: seq<Sentence>, rest: seq<Part>, rest': seq<Part>)
    requires |a| == |b| && SentencesParts(a) + rest == SentencesParts(b) + rest'
    ensures a == b && rest == rest'
  {
    hide Texts, SentenceHead, TokensParts;
    if |a| == 0 {
      assert SentencesParts(a) + rest == rest && SentencesParts(b) + rest' == rest';
    } else {
      var x, y := Texts(SentenceHead(a[0])), Texts(SentenceHead(b[0]));
      SentenceHeadLength(a[0]);
      SentenceHeadLength(b[0]);
      var more, more' := SentencesParts(a[1..]) + rest, SentencesParts(b[1..]) + rest';
      assert SentencesParts(a) + rest == x + (TokensParts(a[0].tokens) + more);
      assert SentencesParts(b) + rest' == y + (TokensParts(b[0].tokens) + more');
      Apart(x, y, TokensParts(a[0].tokens) + more, TokensParts(b[0].tokens) + more');
      SameSentenceHead(a[0], b[0]);
      TokensApart(a[0].tokens, b[0].tokens, more, more');
      SentencesApart(a[1..], b[1..], rest, rest');
      assert a == [a[0]] + a[1..] && b == [b[0]] + b[1..];
    }
  }

  lemma {:induction false} SameInstructions(a: seq<string>, b: seq<string>)
    requires InstructionsParts(a) == InstructionsParts(b)
    ensures a == b
  {
    if |a| > 0 && |b| > 0 {
      assert InstructionsParts(a)[0] == InstructionsParts(b)[0];
      assert InstructionsParts(a)[1..] == InstructionsParts(a[1..]) && InstructionsParts(b)[1..] == InstructionsParts(b[1..]);
      SameInstructions(a[1..], b[1..]);
      assert a == [a[0]] + a[1..] && b == [b[0]] + b[1..];
    }
  }

  lemma OptsInjective(s: Option<string>, s': Option<string>, b: Option<bool>, b': Option<bool>, n: Option<int>, n': Option<int>)
    ensures OptStr(s) == OptStr(s') ==> s == s'
    ensures OptBool(b) == OptBool(b') ==> b == b'
    ensures OptInt(n) == OptInt(n') ==> n == n'
  {
  }

  lemma SameAt(a: seq<Value>, b: seq<Value>, k: nat)
    requires k < |a| && k < |b| && SameKind(a[k], b[k])
    requires |Texts(a)| == |a| && |Texts(b)| == |b| && Texts(a)[k] == Texts(b)[k]
    ensures a[k] == b[k]
  {
    SameValue(a[k], b[k]);
  }

  lemma SameTask(x: Identity, y: Identity)
    requires Texts(TaskValues(x)) == Texts(TaskValues(y))
    ensures x.taskId == y.taskId && x.taskVersion == y.taskVersion && x.packetId == y.packetId && x.holdoutId == y.holdoutId
  {
    hide Texts, Trimmed;
    var a, b := TaskValues(x), TaskValues(y);
    SameAt(a, b, 0); SameAt(a, b, 1); SameAt(a, b, 2); SameAt(a, b, 3);
  }

  lemma SameVersions(x: Identity, y: Identity)
    requires Texts(VersionValues(x)) == Texts(VersionValues(y))
    ensures x.protocolId == y.protocolId && x.guidelineVersion == y.guidelineVersion && x.dataVersion == y.dataVersion && x.protocolVersion == y.protocolVersion
  {
    hide Texts, Trimmed;
    var a, b := VersionValues(x), VersionValues(y);
    SameAt(a, b, 0); SameAt(a, b, 1); SameAt(a, b, 2); SameAt(a, b, 3);
  }

  lemma SamePacketPolicy(x: Packet, y: Packet)
    requires Texts(PacketPolicy(x)) == Texts(PacketPolicy(y))
    ensures x.metricPolicy == y.metricPolicy && x.releaseCandidateId == y.releaseCandidateId && x.pilotOnly == y.pilotOnly && x.developerVisible == y.developerVisible
  {
    hide Texts, Trimmed;
    var a, b := PacketPolicy(x), PacketPolicy(y);
    SameAt(a, b, 0); SameAt(a, b, 1); SameAt(a, b, 2); SameAt(a, b, 3);
    OptsInjective(x.releaseCandidateId, y.releaseCandidateId, x.pilotOnly, y.pilotOnly, None, None);
    OptsInjective(None, None, x.developerVisible, y.developerVisible, None, None);
  }

  lemma SamePacketOrigin(x: Packet, y: Packet)
    requires Texts(PacketOrigin(x)) == Texts(PacketOrigin(y))
    ensures x.parserPredictionsExcluded == y.parserPredictionsExcluded && x.derivedFromExcludedCorpus == y.derivedFromExcludedCorpus && x.holdoutManifestSha256 == y.holdoutManifestSha256
    ensures |x.sentences| == |y.sentences|
  {
    hide Texts, Trimmed;
    var a, b := PacketOrigin(x), PacketOrigin(y);
    SameAt(a, b, 0); SameAt(a, b, 1); SameAt(a, b, 2); SameAt(a, b, 3);
    OptsInjective(x.holdoutManifestSha256, y.holdoutManifestSha256, x.parserPredictionsExcluded, y.parserPredictionsExcluded, None, None);
    OptsInjective(None, None, x.derivedFromExcludedCorpus, y.derivedFromExcludedCorpus, None, None);
  }

  lemma SameTokenLeft(x: AnnotatedToken, y: AnnotatedToken)
    requires Texts(AnnotatedTokenLeft(x)) == Texts(AnnotatedTokenLeft(y))
    ensures x.tokenId == y.tokenId && x.universalPartOfSpeech == y.universalPartOfSpeech && x.headTokenId == y.headTokenId && x.dependencyRelation == y.dependencyRelation
  {
    hide Texts, Trimmed;
    var a, b := AnnotatedTokenLeft(x), AnnotatedTokenLeft(y);
    SameAt(a, b, 0); SameAt(a, b, 1); SameAt(a, b, 2); SameAt(a, b, 3);
    OptsInjective(x.universalPartOfSpeech, y.universalPartOfSpeech, None, None, x.headTokenId, y.headTokenId);
    OptsInjective(x.dependencyRelation, y.dependencyRelation, None, None, None, None);
  }

  lemma SameTokenRight(x: AnnotatedToken, y: AnnotatedToken)
    requires Texts(AnnotatedTokenRight(x)) == Texts(AnnotatedTokenRight(y))
    ensures x.irabHeadTokenId == y.irabHeadTokenId && x.irabCategory == y.irabCategory && x.irabNotApplicable == y.irabNotApplicable && x.note == y.note
  {
    hide Texts, Trimmed;
    var a, b := AnnotatedTokenRight(x), AnnotatedTokenRight(y);
    SameAt(a, b, 0); SameAt(a, b, 1); SameAt(a, b, 2); SameAt(a, b, 3);
    OptsInjective(x.irabCategory, y.irabCategory, x.irabNotApplicable, y.irabNotApplicable, x.irabHeadTokenId, y.irabHeadTokenId);
    OptsInjective(x.note, y.note, None, None, None, None);
  }

  lemma SameAnnotatedHead(x: AnnotatedSentence, y: AnnotatedSentence)
    requires Texts(AnnotatedHead(x)) == Texts(AnnotatedHead(y))
    ensures x.sentenceId == y.sentenceId && x.structurallyAcceptable == y.structurallyAcceptable && x.completePredicate == y.completePredicate && x.note == y.note
    ensures |x.tokens| == |y.tokens|
  {
    hide Texts, Trimmed;
    var a, b := AnnotatedHead(x), AnnotatedHead(y);
    SameAt(a, b, 0); SameAt(a, b, 1); SameAt(a, b, 2); SameAt(a, b, 3); SameAt(a, b, 4);
    OptsInjective(x.note, y.note, x.structurallyAcceptable, y.structurallyAcceptable, None, None);
    OptsInjective(None, None, x.completePredicate, y.completePredicate, None, None);
  }

  lemma SameAnnotationTag(x: Annotation, y: Annotation)
    requires Texts(AnnotationTag(x)) == Texts(AnnotationTag(y))
    ensures x.packetMerkleRoot == y.packetMerkleRoot
  {
    hide Texts, Trimmed;
    var a, b := AnnotationTag(x), AnnotationTag(y);
    SameAt(a, b, 0); SameAt(a, b, 1); SameAt(a, b, 2);
  }

  lemma SameAnnotationPerson(x: Annotation, y: Annotation)
    requires Texts(AnnotationPerson(x)) == Texts(AnnotationPerson(y))
    ensures x.annotatorSlot == y.annotatorSlot && x.annotatorPseudonym == y.annotatorPseudonym && x.isHuman == y.isHuman && x.isSynthetic == y.isSynthetic
  {
    hide Texts, Trimmed;
    var a, b := AnnotationPerson(x), AnnotationPerson(y);
    SameAt(a, b, 0); SameAt(a, b, 1); SameAt(a, b, 2); SameAt(a, b, 3);
    OptsInjective(x.annotatorPseudonym, y.annotatorPseudonym, x.isHuman, y.isHuman, None, None);
    OptsInjective(None, None, x.isSynthetic, y.isSynthetic, None, None);
  }

  lemma SameAnnotationStance(x: Annotation, y: Annotation)
    requires Texts(AnnotationStance(x)) == Texts(AnnotationStance(y))
    ensures x.independentFromImplementationTeam == y.independentFromImplementationTeam && x.blindToParserInternals == y.blindToParserInternals && x.parserPredictionsViewed == y.parserPredictionsViewed
    ensures |x.sentences| == |y.sentences|
  {
    hide Texts, Trimmed;
    var a, b := AnnotationStance(x), AnnotationStance(y);
    SameAt(a, b, 0); SameAt(a, b, 1); SameAt(a, b, 2); SameAt(a, b, 3);
    OptsInjective(None, None, x.independentFromImplementationTeam, y.independentFromImplementationTeam, None, None);
    OptsInjective(None, None, x.blindToParserInternals, y.blindToParserInternals, None, None);
    OptsInjective(None, None, x.parserPredictionsViewed, y.parserPredictionsViewed, None, None);
  }

  lemma SameDecisionTag(x: Decision, y: Decision)
    requires Texts(DecisionTag(x)) == Texts(DecisionTag(y))
    ensures x.packetMerkleRoot == y.packetMerkleRoot && x.annotationAMerkleRoot == y.annotationAMerkleRoot && x.annotationBMerkleRoot == y.annotationBMerkleRoot
  {
    hide Texts, Trimmed;
    var a, b := DecisionTag(x), DecisionTag(y);
    SameAt(a, b, 0); SameAt(a, b, 1); SameAt(a, b, 2); SameAt(a, b, 3); SameAt(a, b, 4);
  }

  lemma SameDecisionPerson(x: Decision, y: Decision)
    requires Texts(DecisionPerson(x)) == Texts(DecisionPerson(y))
    ensures x.annotationASlot == y.annotationASlot && x.annotationBSlot == y.annotationBSlot && x.adjudicatorSlot == y.adjudicatorSlot && x.adjudicatorPseudonym == y.adjudicatorPseudonym && x.adjudicatorIsHuman == y.adjudicatorIsHuman
  {
    hide Texts, Trimmed;
    var a, b := DecisionPerson(x), DecisionPerson(y);
    SameAt(a, b, 0); SameAt(a, b, 1); SameAt(a, b, 2); SameAt(a, b, 3); SameAt(a, b, 4);
    OptsInjective(x.adjudicatorPseudonym, y.adjudicatorPseudonym, x.adjudicatorIsHuman, y.adjudicatorIsHuman, None, None);
  }

  lemma SameDecisionStance(x: Decision, y: Decision)
    requires Texts(DecisionStance(x)) == Texts(DecisionStance(y))
    ensures x.adjudicatorIsSynthetic == y.adjudicatorIsSynthetic && x.independentFromImplementationTeam == y.independentFromImplementationTeam && x.blindToParserInternals == y.blindToParserInternals && x.parserPredictionsViewed == y.parserPredictionsViewed
    ensures |x.sentences| == |y.sentences|
  {
    hide Texts, Trimmed;
    var a, b := DecisionStance(x), DecisionStance(y);
    SameAt(a, b, 0); SameAt(a, b, 1); SameAt(a, b, 2); SameAt(a, b, 3); SameAt(a, b, 4);
    OptsInjective(None, None, x.adjudicatorIsSynthetic, y.adjudicatorIsSynthetic, None, None);
    OptsInjective(None, None, x.independentFromImplementationTeam, y.independentFromImplementationTeam, None, None);
    OptsInjective(None, None, x.blindToParserInternals, y.blindToParserInternals, None, None);
    OptsInjective(None, None, x.parserPredictionsViewed, y.parserPredictionsViewed, None, None);
  }

  lemma SameRatificationTag(x: Ratification, y: Ratification)
    requires Texts(RatificationTag(x)) == Texts(RatificationTag(y))
    ensures x.taskId == y.taskId && x.taskVersion == y.taskVersion && x.packetId == y.packetId
  {
    hide Texts, Trimmed;
    var a, b := RatificationTag(x), RatificationTag(y);
    SameAt(a, b, 0); SameAt(a, b, 1); SameAt(a, b, 2); SameAt(a, b, 3); SameAt(a, b, 4);
  }

  lemma SameRatificationSubject(x: Ratification, y: Ratification)
    requires Texts(RatificationSubject(x)) == Texts(RatificationSubject(y))
    ensures x.holdoutId == y.holdoutId && x.protocolVersion == y.protocolVersion && x.packetMerkleRoot == y.packetMerkleRoot && x.primaryReceiptId == y.primaryReceiptId
  {
    hide Texts, Trimmed;
    var a, b := RatificationSubject(x), RatificationSubject(y);
    SameAt(a, b, 0); SameAt(a, b, 1); SameAt(a, b, 2); SameAt(a, b, 3);
    OptsInjective(x.primaryReceiptId, y.primaryReceiptId, None, None, None, None);
  }

  lemma SameRatificationPerson(x: Ratification, y: Ratification)
    requires Texts(RatificationPerson(x)) == Texts(RatificationPerson(y))
    ensures x.primaryAdjudicationMerkleRoot == y.primaryAdjudicationMerkleRoot && x.reviewerSlot == y.reviewerSlot && x.reviewerPseudonym == y.reviewerPseudonym && x.reviewerIsHuman == y.reviewerIsHuman
  {
    hide Texts, Trimmed;
    var a, b := RatificationPerson(x), RatificationPerson(y);
    SameAt(a, b, 0); SameAt(a, b, 1); SameAt(a, b, 2); SameAt(a, b, 3);
    OptsInjective(x.reviewerPseudonym, y.reviewerPseudonym, x.reviewerIsHuman, y.reviewerIsHuman, None, None);
  }

  lemma SameRatificationOutcome(x: Ratification, y: Ratification)
    requires Texts(RatificationOutcome(x)) == Texts(RatificationOutcome(y))
    ensures x.reviewerIsSynthetic == y.reviewerIsSynthetic && x.independentFromImplementationTeam == y.independentFromImplementationTeam && x.decision == y.decision
    ensures Trimmed(x.rationale) == Trimmed(y.rationale)
  {
    hide Texts, Trimmed;
    var a, b := RatificationOutcome(x), RatificationOutcome(y);
    SameAt(a, b, 0); SameAt(a, b, 1); SameAt(a, b, 2); SameAt(a, b, 3);
    OptsInjective(None, None, x.reviewerIsSynthetic, y.reviewerIsSynthetic, None, None);
    OptsInjective(None, None, x.independentFromImplementationTeam, y.independentFromImplementationTeam, None, None);
  }

  // ---- Groups and lists fall apart in one way

  lemma {:induction false} LaidApart(a: seq<seq<Value>>, b: seq<seq<Value>>, rest: seq<Part>, rest': seq<Part>)
    requires |a| == |b| && forall i :: 0 <= i < |a| ==> |a[i]| == |b[i]|
    requires Laid(a) + rest == Laid(b) + rest'
    ensures forall i :: 0 <= i < |a| ==> Texts(a[i]) == Texts(b[i])
    ensures rest == rest'
  {
    hide Texts;
    if |a| == 0 {
      assert Laid(a) + rest == rest && Laid(b) + rest' == rest';
    } else {
      var x, y := Texts(a[0]), Texts(b[0]);
      assert Laid(a) + rest == x + (Laid(a[1..]) + rest) && Laid(b) + rest' == y + (Laid(b[1..]) + rest');
      Apart(x, y, Laid(a[1..]) + rest, Laid(b[1..]) + rest');
      LaidApart(a[1..], b[1..], rest, rest');
      assert forall i :: 0 < i < |a| ==> a[i] == a[1..][i - 1] && b[i] == b[1..][i - 1];
    }
  }

  lemma {:induction false} AnnotatedTokensApart(a: seq<AnnotatedToken>, b: seq<AnnotatedToken>, rest: seq<Part>, rest': seq<Part>)
    requires |a| == |b| && AnnotatedTokensParts(a) + rest == AnnotatedTokensParts(b) + rest'
    ensures a == b && rest == rest'
  {
    hide Texts, AnnotatedTokenLeft, AnnotatedTokenRight;
    if |a| == 0 {
      assert AnnotatedTokensParts(a) + rest == rest && AnnotatedTokensParts(b) + rest' == rest';
    } else {
      var x, y := Texts(AnnotatedTokenLeft(a[0])), Texts(AnnotatedTokenLeft(b[0]));
      var z, w := Texts(AnnotatedTokenRight(a[0])), Texts(AnnotatedTokenRight(b[0]));
      AnnotatedTokenLengths(a[0]);
      AnnotatedTokenLengths(b[0]);
      var more, more' := AnnotatedTokensParts(a[1..]) + rest, AnnotatedTokensParts(b[1..]) + rest';
      assert AnnotatedTokensParts(a) + rest == x + (z + more);
      assert AnnotatedTokensParts(b) + rest' == y + (w + more');
      Apart(x, y, z + more, w + more');
      Apart(z, w, more, more');
      SameTokenLeft(a[0], b[0]);
      SameTokenRight(a[0], b[0]);
      AnnotatedTokensApart(a[1..], b[1..], rest, rest');
      assert a == [a[0]] + a[1..] && b == [b[0]] + b[1..];
    }
  }

  lemma AnnotatedTokenLengths(t: AnnotatedToken)
    ensures |Texts(AnnotatedTokenLeft(t))| == 4 && |Texts(AnnotatedTokenRight(t))| == 4
  {
  }

  lemma AnnotatedHeadLength(s: AnnotatedSentence)
    ensures |Texts(AnnotatedHead(s))| == 5
  {
  }

  lemma {:induction false} SameAnnotated(a: seq<AnnotatedSentence>, b: seq<AnnotatedSentence>)
    requires |a| == |b| && AnnotatedParts(a) == AnnotatedParts(b)
    ensures a == b
  {
    hide Texts, AnnotatedHead, AnnotatedTokensParts;
    if |a| > 0 {
      var x, y := Texts(AnnotatedHead(a[0])), Texts(AnnotatedHead(b[0]));
      AnnotatedHeadLength(a[0]);
      AnnotatedHeadLength(b[0]);
      var more, more' := AnnotatedParts(a[1..]), AnnotatedParts(b[1..]);
      assert AnnotatedParts(a) == x + (AnnotatedTokensParts(a[0].tokens) + more);
      assert AnnotatedParts(b) == y + (AnnotatedTokensParts(b[0].tokens) + more');
      Apart(x, y, AnnotatedTokensParts(a[0].tokens) + more, AnnotatedTokensParts(b[0].tokens) + more');
      SameAnnotatedHead(a[0], b[0]);
      AnnotatedTokensApart(a[0].tokens, b[0].tokens, more, more');
      SameAnnotated(a[1..], b[1..]);
      assert a == [a[0]] + a[1..] && b == [b[0]] + b[1..];
    }
  }

  // ---- Equal parts are equal evidence

  lemma SamePacket(p: Packet, q: Packet)
    requires PacketParts(p) == PacketParts(q)
    ensures Alike(p, q)
  {
    hide Texts;
    var more, more' := Texts([Number(|Instructions(p)|)]) + InstructionsParts(Instructions(p)),
                       Texts([Number(|Instructions(q)|)]) + InstructionsParts(Instructions(q));
    LaidApart(PacketHead(p), PacketHead(q), SentencesParts(p.sentences) + more, SentencesParts(q.sentences) + more');
    assert Texts(PacketHead(p)[1]) == Texts(PacketHead(q)[1]) && Texts(PacketHead(p)[2]) == Texts(PacketHead(q)[2]);
    assert Texts(PacketHead(p)[3]) == Texts(PacketHead(q)[3]) && Texts(PacketHead(p)[4]) == Texts(PacketHead(q)[4]);
    SameTask(p.identity, q.identity);
    SameVersions(p.identity, q.identity);
    SamePacketPolicy(p, q);
    SamePacketOrigin(p, q);
    SentencesApart(p.sentences, q.sentences, more, more');
    Apart(Texts([Number(|Instructions(p)|)]), Texts([Number(|Instructions(q)|)]),
          InstructionsParts(Instructions(p)), InstructionsParts(Instructions(q)));
    SameInstructions(Instructions(p), Instructions(q));
  }

  lemma SameAnnotation(x: Annotation, y: Annotation)
    requires AnnotationParts(x) == AnnotationParts(y)
    ensures x == y
  {
    hide Texts;
    var a, b := AnnotationHead(x), AnnotationHead(y);
    LaidApart(a, b, AnnotatedParts(x.sentences), AnnotatedParts(y.sentences));
    assert Texts(a[0]) == Texts(b[0]) && Texts(a[1]) == Texts(b[1]) && Texts(a[2]) == Texts(b[2]);
    assert Texts(a[3]) == Texts(b[3]) && Texts(a[4]) == Texts(b[4]);
    SameAnnotationTag(x, y);
    SameTask(x.identity, y.identity);
    SameVersions(x.identity, y.identity);
    SameAnnotationPerson(x, y);
    SameAnnotationStance(x, y);
    SameAnnotated(x.sentences, y.sentences);
  }

  lemma SameDecision(x: Decision, y: Decision)
    requires DecisionParts(x) == DecisionParts(y)
    ensures x == y
  {
    hide Texts;
    var a, b := DecisionHead(x), DecisionHead(y);
    LaidApart(a, b, AnnotatedParts(x.sentences), AnnotatedParts(y.sentences));
    assert Texts(a[0]) == Texts(b[0]) && Texts(a[1]) == Texts(b[1]) && Texts(a[2]) == Texts(b[2]);
    assert Texts(a[3]) == Texts(b[3]) && Texts(a[4]) == Texts(b[4]);
    SameDecisionTag(x, y);
    SameTask(x.identity, y.identity);
    SameVersions(x.identity, y.identity);
    SameDecisionPerson(x, y);
    SameDecisionStance(x, y);
    SameAnnotated(x.sentences, y.sentences);
  }

  /** Of the rationale only the trimmed text is bound. */
  lemma SameRatification(x: Ratification, y: Ratification)
    requires RatificationParts(x) == RatificationParts(y)
    ensures x.(rationale := "") == y.(rationale := "") && Trimmed(x.rationale) == Trimmed(y.rationale)
  {
    hide Texts, Trimmed;
    var a, b := RatificationGroups(x), RatificationGroups(y);
    LaidApart(a, b, [], []);
    assert Texts(a[0]) == Texts(b[0]) && Texts(a[1]) == Texts(b[1]) && Texts(a[2]) == Texts(b[2]) && Texts(a[3]) == Texts(b[3]);
    SameRatificationTag(x, y);
    SameRatificationSubject(x, y);
    SameRatificationPerson(x, y);
    SameRatificationOutcome(x, y);
  }
}
