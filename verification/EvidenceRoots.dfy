/** The roots over evidence, the checks that bind one artifact to the next, and what a root
    therefore fixes. The hash function is a parameter. */
module EvidenceRoots {
  import opened Options
  import opened Text
  import opened CanonicalEncoding
  import opened Evidence
  import opened EvidenceParts
  import V = EvidenceCoverage

  type Hash = seq<Byte> -> string

  ghost predicate Injective(hash: Hash) {
    forall x, y :: hash(x) == hash(y) ==> x == y
  }

  ghost function PacketRoot(hash: Hash, p: Packet): string {
    hash(Preimage(PacketParts(p)))
  }

  ghost function AnnotationRoot(hash: Hash, a: Annotation): string {
    hash(Preimage(AnnotationParts(a)))
  }

  ghost function DecisionRoot(hash: Hash, d: Decision): string {
    hash(Preimage(DecisionParts(d)))
  }

  ghost function RatificationRoot(hash: Hash, r: Ratification): string {
    hash(Preimage(RatificationParts(r)))
  }

  // ---- Adding groups of values

  method AddFour(b: CanonicalHashBuilder, v0: Value, v1: Value, v2: Value, v3: Value)
    requires b.Valid()
    modifies b
    ensures b.Valid() && b.added == old(b.added) + Texts([v0, v1, v2, v3])
  {
    hide CanonicalHashBuilder.Valid, Texts, TextOf;
    b.Add(v0);
    b.Add(v1);
    b.Add(v2);
    b.Add(v3);
    FourTexts(v0, v1, v2, v3);
  }

  lemma FourTexts(v0: Value, v1: Value, v2: Value, v3: Value)
    ensures Texts([v0, v1, v2, v3]) == [TextOf(v0)] + [TextOf(v1)] + [TextOf(v2)] + [TextOf(v3)]
  {
  }

  lemma OneText(v: Value)
    ensures Texts([v]) == [TextOf(v)]
  {
  }

  lemma TextsAppend(vs: seq<Value>, v: Value)
    ensures Texts(vs + [v]) == Texts(vs) + [TextOf(v)]
  {
  }

  lemma Moved(a: seq<Part>, x: seq<Part>, rest: seq<Part>)
    ensures a + (x + rest) == (a + x) + rest
  {
  }

  method AddIdentity(b: CanonicalHashBuilder, id: Identity)
    requires b.Valid()
    modifies b
    ensures b.Valid() && b.added == old(b.added) + Texts(TaskValues(id)) + Texts(VersionValues(id))
  {
    hide CanonicalHashBuilder.Valid, Texts;
    AddFour(b, Str(id.taskId), Number(id.taskVersion), Str(id.packetId), Str(id.holdoutId));
    AddFour(b, Str(id.protocolId), Str(id.guidelineVersion), Str(id.dataVersion), Str(id.protocolVersion));
  }

  method AddToken(b: CanonicalHashBuilder, t: Token)
    requires b.Valid()
    modifies b
    ensures b.Valid() && b.added == old(b.added) + Texts(TokenValues(t))
  {
    hide CanonicalHashBuilder.Valid, Texts, TextOf;
    b.Add(Number(t.id));
    b.Add(Str(t.form));
    OneText(Number(t.id));
    TextsAppend([Number(t.id)], Str(t.form));
  }

  method AddTokens(b: CanonicalHashBuilder, ts: seq<Token>)
    requires b.Valid()
    modifies b
    ensures b.Valid() && b.added == old(b.added) + TokensParts(ts)
  {
    hide CanonicalHashBuilder.Valid, Texts, TokenValues;
    assert ts[0..] == ts;
    for i := 0 to |ts|
      invariant b.Valid() && b.added + TokensParts(ts[i..]) == old(b.added) + TokensParts(ts)
    {
      assert ts[i..][1..] == ts[i + 1..];
      Moved(b.added, Texts(TokenValues(ts[i])), TokensParts(ts[i + 1..]));
      AddToken(b, ts[i]);
    }
  }

  method AddSentence(b: CanonicalHashBuilder, s: Sentence)
    requires b.Valid()
    modifies b
    ensures b.Valid() && b.added == old(b.added) + (Texts(SentenceHead(s)) + TokensParts(s.tokens))
  {
    hide CanonicalHashBuilder.Valid, Texts, TextOf, TokensParts;
    b.Add(Str(s.sentenceId));
    b.Add(Str(s.text));
    b.Add(Number(|s.tokens|));
    OneText(Str(s.sentenceId));
    TextsAppend([Str(s.sentenceId)], Str(s.text));
    TextsAppend([Str(s.sentenceId)] + [Str(s.text)], Number(|s.tokens|));
    assert [Str(s.sentenceId)] + [Str(s.text)] + [Number(|s.tokens|)] == SentenceHead(s);
    assert b.added == old(b.added) + Texts(SentenceHead(s));
    AddTokens(b, s.tokens);
  }

  method AddSentences(b: CanonicalHashBuilder, ss: seq<Sentence>)
    requires b.Valid()
    modifies b
    ensures b.Valid() && b.added == old(b.added) + SentencesParts(ss)
  {
    hide CanonicalHashBuilder.Valid, Texts, TokensParts, SentenceHead;
    assert ss[0..] == ss;
    for i := 0 to |ss|
      invariant b.Valid() && b.added + SentencesParts(ss[i..]) == old(b.added) + SentencesParts(ss)
    {
      assert ss[i..][1..] == ss[i + 1..];
      Moved(b.added, Texts(SentenceHead(ss[i])) + TokensParts(ss[i].tokens), SentencesParts(ss[i + 1..]));
      AddSentence(b, ss[i]);
    }
  }

  method AddInstructions(b: CanonicalHashBuilder, xs: seq<string>)
    requires b.Valid()
    modifies b
    ensures b.Valid() && b.added == old(b.added) + InstructionsParts(xs)
  {
    hide CanonicalHashBuilder.Valid;
    assert xs[0..] == xs;
    for i := 0 to |xs|
      invariant b.Valid() && b.added + InstructionsParts(xs[i..]) == old(b.added) + InstructionsParts(xs)
    {
      assert xs[i..][1..] == xs[i + 1..];
      Moved(b.added, [Some(xs[i])], InstructionsParts(xs[i + 1..]));
      b.Add(Str(xs[i]));
    }
  }

  method AddAnnotatedToken(b: CanonicalHashBuilder, t: AnnotatedToken)
    requires b.Valid()
    modifies b
    ensures b.Valid() && b.added == old(b.added) + (Texts(AnnotatedTokenLeft(t)) + Texts(AnnotatedTokenRight(t)))
  {
    hide CanonicalHashBuilder.Valid, Texts, OptStr, OptInt, OptBool;
    AddFour(b, Number(t.tokenId), OptStr(t.universalPartOfSpeech), OptInt(t.headTokenId), OptStr(t.dependencyRelation));
    AddFour(b, OptInt(t.irabHeadTokenId), OptStr(t.irabCategory), OptBool(t.irabNotApplicable), OptStr(t.note));
  }

  method AddAnnotatedTokens(b: CanonicalHashBuilder, ts: seq<AnnotatedToken>)
    requires b.Valid()
    modifies b
    ensures b.Valid() && b.added == old(b.added) + AnnotatedTokensParts(ts)
  {
    hide CanonicalHashBuilder.Valid, Texts, AnnotatedTokenLeft, AnnotatedTokenRight;
    assert ts[0..] == ts;
    for i := 0 to |ts|
      invariant b.Valid() && b.added + AnnotatedTokensParts(ts[i..]) == old(b.added) + AnnotatedTokensParts(ts)
    {
      assert ts[i..][1..] == ts[i + 1..];
      Moved(b.added, Texts(AnnotatedTokenLeft(ts[i])) + Texts(AnnotatedTokenRight(ts[i])), AnnotatedTokensParts(ts[i + 1..]));
      AddAnnotatedToken(b, ts[i]);
    }
  }

  method AddAnnotatedSentence(b: CanonicalHashBuilder, s: AnnotatedSentence)
    requires b.Valid()
    modifies b
    ensures b.Valid() && b.added == old(b.added) + (Texts(AnnotatedHead(s)) + AnnotatedTokensParts(s.tokens))
  {
    hide CanonicalHashBuilder.Valid, Texts, TextOf, AnnotatedTokensParts, OptStr, OptBool;
    AddFour(b, Str(s.sentenceId), OptBool(s.structurallyAcceptable), OptBool(s.completePredicate), OptStr(s.note));
    b.Add(Number(|s.tokens|));
    var four := [Str(s.sentenceId), OptBool(s.structurallyAcceptable), OptBool(s.completePredicate), OptStr(s.note)];
    TextsAppend(four, Number(|s.tokens|));
    assert four + [Number(|s.tokens|)] == AnnotatedHead(s);
    assert b.added == old(b.added) + Texts(AnnotatedHead(s));
    AddAnnotatedTokens(b, s.tokens);
  }

  /** The sentences, without the count that comes before them. */
  method AddAnnotations(b: CanonicalHashBuilder, ss: seq<AnnotatedSentence>)
    requires b.Valid()
    modifies b
    ensures b.Valid() && b.added == old(b.added) + AnnotatedParts(ss)
  {
    hide CanonicalHashBuilder.Valid, Texts, AnnotatedTokensParts, AnnotatedHead;
    assert ss[0..] == ss;
    for i := 0 to |ss|
      invariant b.Valid() && b.added + AnnotatedParts(ss[i..]) == old(b.added) + AnnotatedParts(ss)
    {
      assert ss[i..][1..] == ss[i + 1..];
      Moved(b.added, Texts(AnnotatedHead(ss[i])) + AnnotatedTokensParts(ss[i].tokens), AnnotatedParts(ss[i + 1..]));
      AddAnnotatedSentence(b, ss[i]);
    }
  }

  // ---- The artifacts bound to one another

  datatype Primary = Primary(packet: Packet, annotationA: Annotation, annotationB: Annotation, adjudication: Decision)

  ghost predicate BoundAnnotation(hash: Hash, p: Packet, a: Annotation) {
    && PacketOk(p) && a.identity == p.identity && a.annotatorSlot in ["A", "B"]
    && a.packetMerkleRoot == PacketRoot(hash, p) && Covers(p, a.sentences)
  }

  predicate HasReason(note: Option<string>) {
    note.Some? && Trimmed(note.value) != ""
  }

  /** A value needs a reason when the annotators differ on it or the decision overrules both. */
  predicate NeedsReason<T(==)>(a: T, b: T, final: T) {
    a != b || (a == b && final != a)
  }

  predicate SameUnit(x: AnnotatedToken, y: AnnotatedToken) {
    x.(tokenId := 0, note := None) == y.(tokenId := 0, note := None)
  }

  predicate TokenNeedsReason(a: AnnotatedToken, b: AnnotatedToken, final: AnnotatedToken) {
    !SameUnit(a, b) || !SameUnit(final, a)
  }

  predicate SentenceNeedsReason(a: AnnotatedSentence, b: AnnotatedSentence, final: AnnotatedSentence) {
    || NeedsReason(a.structurallyAcceptable, b.structurallyAcceptable, final.structurallyAcceptable)
    || NeedsReason(a.completePredicate, b.completePredicate, final.completePredicate)
  }

  ghost predicate TokenResolved(xs: seq<AnnotatedToken>, ys: seq<AnnotatedToken>, final: AnnotatedToken) {
    forall i, k :: 0 <= i < |xs| && 0 <= k < |ys| && xs[i].tokenId == ys[k].tokenId == final.tokenId ==>
                     (TokenNeedsReason(xs[i], ys[k], final) ==> HasReason(final.note))
  }

  ghost predicate SentenceResolved(a: AnnotatedSentence, b: AnnotatedSentence, final: AnnotatedSentence) {
    && (SentenceNeedsReason(a, b, final) ==> HasReason(final.note))
    && forall i :: 0 <= i < |final.tokens| ==> TokenResolved(a.tokens, b.tokens, final.tokens[i])
  }

  /** Every decision that is not simply what both annotators say comes with a reason. */
  ghost predicate Resolved(xs: seq<AnnotatedSentence>, ys: seq<AnnotatedSentence>, final: seq<AnnotatedSentence>) {
    forall i, j, k :: 0 <= i < |final| && 0 <= j < |xs| && 0 <= k < |ys|
                      && xs[j].sentenceId == ys[k].sentenceId == final[i].sentenceId ==>
                        SentenceResolved(xs[j], ys[k], final[i])
  }

  /** No reason is given: the note is missing, or nothing but white space. */
  predicate NoReason(note: Option<string>) {
    note.None? || forall i :: 0 <= i < |note.value| ==> IsSpace(note.value[i])
  }

  /** Where no reason is given the decision is what both annotators said: each sentence in its
      two fields, each token in its six. */
  ghost predicate GivesReasons(xs: seq<AnnotatedSentence>, ys: seq<AnnotatedSentence>, final: seq<AnnotatedSentence>) {
    forall i, j, k :: 0 <= i < |final| && 0 <= j < |xs| && 0 <= k < |ys|
                      && xs[j].sentenceId == ys[k].sentenceId == final[i].sentenceId ==>
      && (NoReason(final[i].note) ==> AgreeOnSentence(final[i], xs[j]) && AgreeOnSentence(final[i], ys[k]))
      && TokensGiveReasons(xs[j].tokens, ys[k].tokens, final[i].tokens)
  }

  ghost predicate TokensGiveReasons(xs: seq<AnnotatedToken>, ys: seq<AnnotatedToken>, final: seq<AnnotatedToken>) {
    forall i, j, k :: 0 <= i < |final| && 0 <= j < |xs| && 0 <= k < |ys| && xs[j].tokenId == ys[k].tokenId == final[i].tokenId ==>
      (NoReason(final[i].note) ==> AgreeOnToken(final[i], xs[j]) && AgreeOnToken(final[i], ys[k]))
  }

  lemma TokenReasons(a: AnnotatedToken, b: AnnotatedToken, final: AnnotatedToken)
    ensures (TokenNeedsReason(a, b, final) ==> HasReason(final.note))
            <==> (NoReason(final.note) ==> AgreeOnToken(final, a) && AgreeOnToken(final, b))
  {
    if final.note.Some? {
      TrimmedBlank(final.note.value);
    }
    hide Trimmed, IsSpace;
  }

  lemma SentenceReasons(a: AnnotatedSentence, b: AnnotatedSentence, final: AnnotatedSentence)
    ensures (SentenceNeedsReason(a, b, final) ==> HasReason(final.note))
            <==> (NoReason(final.note) ==> AgreeOnSentence(final, a) && AgreeOnSentence(final, b))
  {
    if final.note.Some? {
      TrimmedBlank(final.note.value);
    }
    hide Trimmed, IsSpace;
  }

  lemma TokensResolved(xs: seq<AnnotatedToken>, ys: seq<AnnotatedToken>, final: seq<AnnotatedToken>)
    ensures (forall i :: 0 <= i < |final| ==> TokenResolved(xs, ys, final[i])) <==> TokensGiveReasons(xs, ys, final)
  {
    hide TokenNeedsReason, HasReason, NoReason, AgreeOnToken;
    forall i, j, k | 0 <= i < |final| && 0 <= j < |xs| && 0 <= k < |ys| && xs[j].tokenId == ys[k].tokenId == final[i].tokenId
      ensures (TokenNeedsReason(xs[j], ys[k], final[i]) ==> HasReason(final[i].note))
              <==> (NoReason(final[i].note) ==> AgreeOnToken(final[i], xs[j]) && AgreeOnToken(final[i], ys[k]))
    {
      TokenReasons(xs[j], ys[k], final[i]);
    }
  }

  /** The decision is resolved exactly when reasons are given where they are due. */
  lemma ResolvedOnFields(xs: seq<AnnotatedSentence>, ys: seq<AnnotatedSentence>, final: seq<AnnotatedSentence>)
    ensures Resolved(xs, ys, final) <==> GivesReasons(xs, ys, final)
  {
    hide SentenceNeedsReason, HasReason, NoReason, AgreeOnSentence, TokenResolved, TokensGiveReasons;
    forall i, j, k | 0 <= i < |final| && 0 <= j < |xs| && 0 <= k < |ys|
                     && xs[j].sentenceId == ys[k].sentenceId == final[i].sentenceId
      ensures SentenceResolved(xs[j], ys[k], final[i]) <==>
                && (NoReason(final[i].note) ==> AgreeOnSentence(final[i], xs[j]) && AgreeOnSentence(final[i], ys[k]))
                && TokensGiveReasons(xs[j].tokens, ys[k].tokens, final[i].tokens)
    {
      SentenceReasons(xs[j], ys[k], final[i]);
      TokensResolved(xs[j].tokens, ys[k].tokens, final[i].tokens);
    }
  }

  /** The same decision on the same annotations of alike packets. */
  ghost predicate SameEvidence(x: Primary, y: Primary) {
    x.(packet := y.packet) == y && Alike(x.packet, y.packet)
  }

  /** Everything that is asked of a decision, but its reasons. */
  ghost predicate BoundButForReasons(hash: Hash, x: Primary) {
    var p, a, b, d := x.packet, x.annotationA, x.annotationB, x.adjudication;
    && BoundAnnotation(hash, p, a) && BoundAnnotation(hash, p, b)
    && d.identity == p.identity && d.adjudicatorSlot == "J1"
    && d.packetMerkleRoot == PacketRoot(hash, p)
    && d.annotationAMerkleRoot == AnnotationRoot(hash, a) && d.annotationBMerkleRoot == AnnotationRoot(hash, b)
    && a.annotatorSlot != b.annotatorSlot
    && d.annotationASlot == a.annotatorSlot && d.annotationBSlot == b.annotatorSlot
    && Covers(p, d.sentences)
  }

  ghost predicate BoundDecision(hash: Hash, x: Primary) {
    BoundButForReasons(hash, x)
    && Resolved(x.annotationA.sentences, x.annotationB.sentences, x.adjudication.sentences)
  }

  ghost predicate BoundRatification(hash: Hash, x: Primary, r: Ratification) {
    var id := x.packet.identity;
    && BoundDecision(hash, x)
    && r.taskId == id.taskId && r.taskVersion == id.taskVersion && r.packetId == id.packetId
    && r.holdoutId == id.holdoutId && r.protocolVersion == id.protocolVersion
    && r.packetMerkleRoot == PacketRoot(hash, x.packet)
    && r.primaryAdjudicationMerkleRoot == DecisionRoot(hash, x.adjudication)
    && r.reviewerSlot == "J2" && r.decision in ["agree", "disagree", "recuse"]
    && Utf16Length(Trimmed(r.rationale)) >= 20 && Utf16Length(r.rationale) <= 4000
  }

  // ---- The roots

  lemma Regrouped(o: seq<Part>, a: seq<Part>, b: seq<Part>, c: seq<Part>, d: seq<Part>, e: seq<Part>)
    ensures o + a + b + c + d + e == o + (a + (b + (c + (d + e))))
  {
  }

  /** Five groups one after the other. */
  lemma AddedFive(o: seq<Part>, groups: seq<seq<Value>>)
    requires |groups| == 5
    ensures o + Texts(groups[0]) + Texts(groups[1]) + Texts(groups[2]) + Texts(groups[3]) + Texts(groups[4])
            == o + Laid(groups)
  {
    hide *;
    LaidFive(groups[0], groups[1], groups[2], groups[3], groups[4]);
    assert groups == [groups[0], groups[1], groups[2], groups[3], groups[4]];
    Regrouped(o, Texts(groups[0]), Texts(groups[1]), Texts(groups[2]), Texts(groups[3]), Texts(groups[4]));
  }

  method AddTwo(b: CanonicalHashBuilder, v0: Value, v1: Value)
    requires b.Valid()
    modifies b
    ensures b.Valid() && b.added == old(b.added) + Texts([v0, v1])
  {
    hide CanonicalHashBuilder.Valid, Texts, TextOf;
    b.Add(v0);
    b.Add(v1);
    OneText(v0);
    TextsAppend([v0], v1);
    assert [v0] + [v1] == [v0, v1];
  }

  method AddThree(b: CanonicalHashBuilder, v0: Value, v1: Value, v2: Value)
    requires b.Valid()
    modifies b
    ensures b.Valid() && b.added == old(b.added) + Texts([v0, v1, v2])
  {
    hide CanonicalHashBuilder.Valid, Texts, TextOf;
    AddTwo(b, v0, v1);
    b.Add(v2);
    TextsAppend([v0, v1], v2);
    assert [v0, v1] + [v2] == [v0, v1, v2];
  }

  method AddFive(b: CanonicalHashBuilder, v0: Value, v1: Value, v2: Value, v3: Value, v4: Value)
    requires b.Valid()
    modifies b
    ensures b.Valid() && b.added == old(b.added) + Texts([v0, v1, v2, v3, v4])
  {
    hide CanonicalHashBuilder.Valid, Texts, TextOf;
    AddFour(b, v0, v1, v2, v3);
    b.Add(v4);
    TextsAppend([v0, v1, v2, v3], v4);
    assert [v0, v1, v2, v3] + [v4] == [v0, v1, v2, v3, v4];
  }

  method AddPacketHead(b: CanonicalHashBuilder, p: Packet)
    requires b.Valid()
    modifies b
    ensures b.Valid() && b.added == old(b.added) + Laid(PacketHead(p))
  {
    hide CanonicalHashBuilder.Valid, Texts, TextOf, Laid, OptStr, OptBool, TaskValues, VersionValues;
    AddTwo(b, Str(PACKET_TAG), Str(PACKET_SCHEMA));
    AddIdentity(b, p.identity);
    AddFour(b, Str(p.metricPolicy), OptStr(p.releaseCandidateId), OptBool(p.pilotOnly), OptBool(p.developerVisible));
    AddFour(b, OptBool(p.parserPredictionsExcluded), OptBool(p.derivedFromExcludedCorpus),
            OptStr(p.holdoutManifestSha256), Number(|p.sentences|));
    AddedFive(old(b.added), PacketHead(p));
  }

  method ComputePacketMerkleRoot(hash: Hash, p: Packet) returns (root: Option<string>)
    ensures root == if PacketOk(p) then Some(PacketRoot(hash, p)) else None
  {
    hide CanonicalHashBuilder.Valid, Texts, Laid, SentencesParts, InstructionsParts, PacketOk, Preimage;
    var ok := ValidatePacket(p);
    if !ok {
      return None;
    }
    var b := new CanonicalHashBuilder();
    AddPacketHead(b, p);
    AddSentences(b, p.sentences);
    var instructions := Instructions(p);
    b.Add(Number(|instructions|));
    OneText(Number(|instructions|));
    AddInstructions(b, instructions);
    var bytes := b.Bytes();
    assert b.added == PacketParts(p);
    root := Some(hash(bytes));
  }

  method AddAnnotationHead(b: CanonicalHashBuilder, a: Annotation)
    requires b.Valid()
    modifies b
    ensures b.Valid() && b.added == old(b.added) + Laid(AnnotationHead(a))
  {
    hide CanonicalHashBuilder.Valid, Texts, TextOf, Laid, OptStr, OptBool, TaskValues, VersionValues;
    AddThree(b, Str(ANNOTATION_TAG), Str(ANNOTATION_SCHEMA), Str(a.packetMerkleRoot));
    AddIdentity(b, a.identity);
    AddFour(b, Str(a.annotatorSlot), OptStr(a.annotatorPseudonym), OptBool(a.isHuman), OptBool(a.isSynthetic));
    AddFour(b, OptBool(a.independentFromImplementationTeam), OptBool(a.blindToParserInternals),
            OptBool(a.parserPredictionsViewed), Number(|a.sentences|));
    AddedFive(old(b.added), AnnotationHead(a));
  }

  method ComputeAnnotationMerkleRoot(hash: Hash, p: Packet, a: Annotation) returns (root: Option<string>)
    ensures root == if PacketOk(p) && a.packetMerkleRoot == PacketRoot(hash, p) then Some(AnnotationRoot(hash, a)) else None
  {
    hide CanonicalHashBuilder.Valid, Texts, Laid, AnnotatedParts, PacketOk, Preimage, PacketRoot;
    var packetRoot := ComputePacketMerkleRoot(hash, p);
    if packetRoot.None? || a.packetMerkleRoot != packetRoot.value {
      return None;
    }
    var b := new CanonicalHashBuilder();
    AddAnnotationHead(b, a);
    AddAnnotations(b, a.sentences);
    var bytes := b.Bytes();
    assert b.added == AnnotationParts(a);
    root := Some(hash(bytes));
  }

  method ValidateSubmissionBinding(hash: Hash, p: Packet, a: Annotation) returns (ok: bool)
    ensures ok <==> BoundAnnotation(hash, p, a)
  {
    hide PacketOk, Covers, PacketRoot;
    var packetRoot := ComputePacketMerkleRoot(hash, p);
    if packetRoot.None? || a.identity != p.identity || a.annotatorSlot !in ["A", "B"] {
      return false;
    }
    if a.packetMerkleRoot != packetRoot.value {
      return false;
    }
    ok := ValidateAnnotationCoverage(p, a.sentences);
  }

  // ---- Reasons for decisions

  method IndexTokens(ts: seq<AnnotatedToken>) returns (byId: map<int, AnnotatedToken>)
    requires DistinctTokens(ts)
    ensures forall k :: 0 <= k < |ts| ==> ts[k].tokenId in byId && byId[ts[k].tokenId] == ts[k]
  {
    byId := map[];
    for k := 0 to |ts|
      invariant forall j :: 0 <= j < k ==> ts[j].tokenId in byId && byId[ts[j].tokenId] == ts[j]
    {
      byId := byId[ts[k].tokenId := ts[k]];
    }
  }

  lemma OnlyToken(xs: seq<AnnotatedToken>, ys: seq<AnnotatedToken>, final: AnnotatedToken, i: nat, k: nat)
    requires DistinctTokens(xs) && DistinctTokens(ys) && i < |xs| && k < |ys|
    requires xs[i].tokenId == ys[k].tokenId == final.tokenId
    ensures TokenResolved(xs, ys, final) <==> (TokenNeedsReason(xs[i], ys[k], final) ==> HasReason(final.note))
  {
    hide TokenNeedsReason, HasReason;
  }

  /** Every token of the decision has its two annotations: the lookups never fail. */
  method ValidateTokenResolutions(a: AnnotatedSentence, b: AnnotatedSentence, final: AnnotatedSentence) returns (ok: bool)
    requires var n := |final.tokens|; NumberedTo(a.tokens, n) && NumberedTo(b.tokens, n) && NumberedTo(final.tokens, n)
    ensures ok <==> forall i :: 0 <= i < |final.tokens| ==> TokenResolved(a.tokens, b.tokens, final.tokens[i])
  {
    hide TokenResolved, TokenNeedsReason, HasReason;
    var aTokens := IndexTokens(a.tokens);
    var bTokens := IndexTokens(b.tokens);
    for i := 0 to |final.tokens|
      invariant forall k :: 0 <= k < i ==> TokenResolved(a.tokens, b.tokens, final.tokens[k])
    {
      var t := final.tokens[i];
      ghost var j := V.TokenCounterpart(final.tokens, a.tokens, i);
      ghost var k := V.TokenCounterpart(final.tokens, b.tokens, i);
      OnlyToken(a.tokens, b.tokens, t, j, k);
      if TokenNeedsReason(aTokens[t.tokenId], bTokens[t.tokenId], t) && !HasReason(t.note) {
        return false;
      }
    }
    return true;
  }

  lemma OnlySentence(xs: seq<AnnotatedSentence>, ys: seq<AnnotatedSentence>, final: seq<AnnotatedSentence>, i: nat, j: nat, k: nat)
    requires DistinctAnnotated(xs) && DistinctAnnotated(ys) && i < |final| && j < |xs| && k < |ys|
    requires xs[j].sentenceId == ys[k].sentenceId == final[i].sentenceId
    ensures SentenceIsResolved(xs, ys, final, i) <==> SentenceResolved(xs[j], ys[k], final[i])
  {
    hide SentenceResolved;
  }

  ghost predicate SentenceIsResolved(xs: seq<AnnotatedSentence>, ys: seq<AnnotatedSentence>, final: seq<AnnotatedSentence>, i: nat)
    requires i < |final|
  {
    forall j, k :: 0 <= j < |xs| && 0 <= k < |ys| && xs[j].sentenceId == ys[k].sentenceId == final[i].sentenceId ==>
                     SentenceResolved(xs[j], ys[k], final[i])
  }

  lemma ResolvedIsPointwise(xs: seq<AnnotatedSentence>, ys: seq<AnnotatedSentence>, final: seq<AnnotatedSentence>)
    ensures Resolved(xs, ys, final) <==> forall i :: 0 <= i < |final| ==> SentenceIsResolved(xs, ys, final, i)
  {
    hide SentenceResolved;
    if forall i :: 0 <= i < |final| ==> SentenceIsResolved(xs, ys, final, i) {
      forall i, j, k | 0 <= i < |final| && 0 <= j < |xs| && 0 <= k < |ys|
                       && xs[j].sentenceId == ys[k].sentenceId == final[i].sentenceId
        ensures SentenceResolved(xs[j], ys[k], final[i])
      {
        assert SentenceIsResolved(xs, ys, final, i);
      }
    }
  }

  method ValidateAdjudicationResolutions(ghost p: Packet, xs: seq<AnnotatedSentence>, ys: seq<AnnotatedSentence>,
                                         final: seq<AnnotatedSentence>) returns (ok: bool)
    requires PacketOk(p) && Covers(p, xs) && Covers(p, ys) && Covers(p, final)
    ensures ok <==> Resolved(xs, ys, final)
    ensures ok <==> GivesReasons(xs, ys, final)
  {
    hide SentenceResolved, PacketOk, NumberedTo, Resolved, SentenceIsResolved, GivesReasons;
    ResolvedIsPointwise(xs, ys, final);
    ResolvedOnFields(xs, ys, final);
    var aSentences := IndexSentences(xs);
    var bSentences := IndexSentences(ys);
    for i := 0 to |final|
      invariant forall k :: 0 <= k < i ==> SentenceIsResolved(xs, ys, final, k)
    {
      var f := final[i];
      ghost var j := V.Counterpart(p, final, xs, i);
      ghost var k := V.Counterpart(p, final, ys, i);
      OnlySentence(xs, ys, final, i, j, k);
      var a, b := aSentences.value[f.sentenceId], bSentences.value[f.sentenceId];
      assert a == xs[j] && b == ys[k];
      var resolved := ValidateSentenceResolution(a, b, f);
      if !resolved {
        return false;
      }
    }
    return true;
  }

  method ValidateSentenceResolution(a: AnnotatedSentence, b: AnnotatedSentence, final: AnnotatedSentence) returns (ok: bool)
    requires var n := |final.tokens|; NumberedTo(a.tokens, n) && NumberedTo(b.tokens, n) && NumberedTo(final.tokens, n)
    ensures ok <==> SentenceResolved(a, b, final)
  {
    hide TokenResolved, SentenceNeedsReason, HasReason, NumberedTo;
    if SentenceNeedsReason(a, b, final) && !HasReason(final.note) {
      return false;
    }
    ok := ValidateTokenResolutions(a, b, final);
  }

  method ValidateAdjudicationBinding(hash: Hash, x: Primary) returns (ok: bool)
    ensures ok <==> BoundDecision(hash, x)
    ensures ok <==>
              BoundButForReasons(hash, x)
              && GivesReasons(x.annotationA.sentences, x.annotationB.sentences, x.adjudication.sentences)
  {
    hide GivesReasons;
    ResolvedOnFields(x.annotationA.sentences, x.annotationB.sentences, x.adjudication.sentences);
    hide PacketOk, Covers, PacketRoot, AnnotationRoot, Resolved;
    var p, a, b, d := x.packet, x.annotationA, x.annotationB, x.adjudication;
    var boundA := ValidateSubmissionBinding(hash, p, a);
    if !boundA {
      return false;
    }
    var boundB := ValidateSubmissionBinding(hash, p, b);
    if !boundB {
      return false;
    }
    var packetRoot := ComputePacketMerkleRoot(hash, p);
    var rootA := ComputeAnnotationMerkleRoot(hash, p, a);
    var rootB := ComputeAnnotationMerkleRoot(hash, p, b);
    if d.identity != p.identity || d.adjudicatorSlot != "J1" || d.packetMerkleRoot != packetRoot.value
       || d.annotationAMerkleRoot != rootA.value || d.annotationBMerkleRoot != rootB.value {
      return false;
    }
    if a.annotatorSlot == b.annotatorSlot || d.annotationASlot != a.annotatorSlot || d.annotationBSlot != b.annotatorSlot {
      return false;
    }
    var covered := ValidateAnnotationCoverage(p, d.sentences);
    if !covered {
      return false;
    }
    ok := ValidateAdjudicationResolutions(p, a.sentences, b.sentences, d.sentences);
  }

  method AddDecisionHead(b: CanonicalHashBuilder, d: Decision)
    requires b.Valid()
    modifies b
    ensures b.Valid() && b.added == old(b.added) + Laid(DecisionHead(d))
  {
    hide CanonicalHashBuilder.Valid, Texts, TextOf, Laid, OptStr, OptBool, TaskValues, VersionValues;
    AddFive(b, Str(DECISION_TAG), Str(ADJUDICATION_SCHEMA), Str(d.packetMerkleRoot),
            Str(d.annotationAMerkleRoot), Str(d.annotationBMerkleRoot));
    AddIdentity(b, d.identity);
    AddFive(b, Str(d.annotationASlot), Str(d.annotationBSlot), Str(d.adjudicatorSlot), OptStr(d.adjudicatorPseudonym),
            OptBool(d.adjudicatorIsHuman));
    AddFive(b, OptBool(d.adjudicatorIsSynthetic), OptBool(d.independentFromImplementationTeam),
            OptBool(d.blindToParserInternals), OptBool(d.parserPredictionsViewed), Number(|d.sentences|));
    AddedFive(old(b.added), DecisionHead(d));
  }

  method ComputeAdjudicationMerkleRoot(hash: Hash, x: Primary) returns (root: Option<string>)
    ensures root == if BoundDecision(hash, x) then Some(DecisionRoot(hash, x.adjudication)) else None
  {
    hide CanonicalHashBuilder.Valid, Texts, Laid, AnnotatedParts, BoundDecision, Preimage;
    var ok := ValidateAdjudicationBinding(hash, x);
    if !ok {
      return None;
    }
    var b := new CanonicalHashBuilder();
    AddDecisionHead(b, x.adjudication);
    AddAnnotations(b, x.adjudication.sentences);
    var bytes := b.Bytes();
    assert b.added == DecisionParts(x.adjudication);
    root := Some(hash(bytes));
  }

  method ValidateRatificationBinding(hash: Hash, x: Primary, r: Ratification) returns (ok: bool)
    ensures ok <==> BoundRatification(hash, x, r)
  {
    hide PacketOk, PacketRoot, DecisionRoot, Trimmed, Covers, Resolved, AnnotationRoot;
    var primaryRoot := ComputeAdjudicationMerkleRoot(hash, x);
    if primaryRoot.None? {
      return false;
    }
    var packetRoot := ComputePacketMerkleRoot(hash, x.packet);
    var id := x.packet.identity;
    ok := r.taskId == id.taskId && r.taskVersion == id.taskVersion && r.packetId == id.packetId
          && r.holdoutId == id.holdoutId && r.protocolVersion == id.protocolVersion
          && r.packetMerkleRoot == packetRoot.value && r.primaryAdjudicationMerkleRoot == primaryRoot.value
          && r.reviewerSlot == "J2" && r.decision in ["agree", "disagree", "recuse"]
          && Utf16Length(Trimmed(r.rationale)) >= 20 && Utf16Length(r.rationale) <= 4000;
  }

  method ComputeRatificationMerkleRoot(hash: Hash, x: Primary, r: Ratification) returns (root: Option<string>)
    ensures root == if BoundRatification(hash, x, r) then Some(RatificationRoot(hash, r)) else None
  {
    hide CanonicalHashBuilder.Valid, Texts, TextOf, Laid, BoundRatification, Preimage, OptStr, OptBool, Trimmed;
    var ok := ValidateRatificationBinding(hash, x, r);
    if !ok {
      return None;
    }
    var b := new CanonicalHashBuilder();
    AddFive(b, Str(RATIFICATION_TAG), Str(RATIFICATION_SCHEMA), Str(r.taskId),
            Number(r.taskVersion), Str(r.packetId));
    AddFour(b, Str(r.holdoutId), Str(r.protocolVersion), Str(r.packetMerkleRoot), OptStr(r.primaryReceiptId));
    AddFour(b, Str(r.primaryAdjudicationMerkleRoot), Str(r.reviewerSlot), OptStr(r.reviewerPseudonym),
            OptBool(r.reviewerIsHuman));
    AddFour(b, OptBool(r.reviewerIsSynthetic), OptBool(r.independentFromImplementationTeam), Str(r.decision),
            Str(Trimmed(r.rationale)));
    AddedFour(RatificationGroups(r));
    assert b.added == RatificationParts(r);
    var bytes := b.Bytes();
    root := Some(hash(bytes));
  }

  lemma AddedFour(groups: seq<seq<Value>>)
    requires |groups| == 4
    ensures [] + Texts(groups[0]) + Texts(groups[1]) + Texts(groups[2]) + Texts(groups[3]) == Laid(groups)
  {
    hide *;
    LaidFour(groups[0], groups[1], groups[2], groups[3]);
    assert groups == [groups[0], groups[1], groups[2], groups[3]];
  }

  // ---- What a root fixes

  lemma AlikeMeans(p: Packet, q: Packet)
    ensures Alike(p, q) <==>
              && p.(instructions := None) == q.(instructions := None)
              && (p.instructions == q.instructions || {p.instructions, q.instructions} == {None, Some([])})
  {
    if p.instructions != q.instructions && Instructions(p) == Instructions(q) {
      assert Instructions(p) == [];
      assert None in {p.instructions, q.instructions} && Some([]) in {p.instructions, q.instructions};
    }
    if {p.instructions, q.instructions} == {None, Some([])} {
      assert p.instructions in {p.instructions, q.instructions} && q.instructions in {p.instructions, q.instructions};
    }
  }

  lemma PacketRootFixes(hash: Hash, p: Packet, q: Packet)
    requires Injective(hash)
    ensures PacketRoot(hash, p) == PacketRoot(hash, q) <==> Alike(p, q)
    ensures Alike(p, q) <==>
              && p.(instructions := None) == q.(instructions := None)
              && (p.instructions == q.instructions || {p.instructions, q.instructions} == {None, Some([])})
  {
    AlikeMeans(p, q);
    if PacketRoot(hash, p) == PacketRoot(hash, q) {
      hide Preimage, PacketParts;
      PreimageInjective(PacketParts(p), PacketParts(q));
      SamePacket(p, q);
    }
  }

  lemma AnnotationRootFixes(hash: Hash, a: Annotation, b: Annotation)
    requires Injective(hash) && AnnotationRoot(hash, a) == AnnotationRoot(hash, b)
    ensures a == b
  {
    hide Preimage, AnnotationParts;
    PreimageInjective(AnnotationParts(a), AnnotationParts(b));
    SameAnnotation(a, b);
  }

  lemma DecisionRootFixes(hash: Hash, d: Decision, e: Decision)
    requires Injective(hash) && DecisionRoot(hash, d) == DecisionRoot(hash, e)
    ensures d == e
  {
    hide Preimage, DecisionParts;
    PreimageInjective(DecisionParts(d), DecisionParts(e));
    SameDecision(d, e);
  }

  /** The root of a ratification fixes everything it rests on: the packet, both annotations,
      the decision, and the ratification up to white space around its rationale. Of the packet,
      missing and empty instructions are not told apart. */
  lemma RatificationRootFixesTheEvidence(hash: Hash, x: Primary, r: Ratification, y: Primary, s: Ratification)
    requires Injective(hash) && BoundRatification(hash, x, r) && BoundRatification(hash, y, s)
    requires RatificationRoot(hash, r) == RatificationRoot(hash, s)
    ensures SameEvidence(x, y)
    ensures r.(rationale := "") == s.(rationale := "") && Trimmed(r.rationale) == Trimmed(s.rationale)
  {
    PreimageInjective(RatificationParts(r), RatificationParts(s));
    hide PacketOk, Covers, Resolved, Trimmed, Preimage, RatificationParts, PacketRoot, AnnotationRoot, DecisionRoot, Injective;
    SameRatification(r, s);
    DecisionRootFixes(hash, x.adjudication, y.adjudication);
    AnnotationRootFixes(hash, x.annotationA, y.annotationA);
    AnnotationRootFixes(hash, x.annotationB, y.annotationB);
    PacketRootFixes(hash, x.packet, y.packet);
  }

  /** No artifact of one kind has the preimage of an artifact of another kind. */
  lemma KindsNeverCoincide(p: Packet, a: Annotation, d: Decision, r: Ratification)
    ensures Preimage(PacketParts(p)) != Preimage(AnnotationParts(a))
    ensures Preimage(PacketParts(p)) != Preimage(DecisionParts(d))
    ensures Preimage(PacketParts(p)) != Preimage(RatificationParts(r))
    ensures Preimage(AnnotationParts(a)) != Preimage(DecisionParts(d))
    ensures Preimage(AnnotationParts(a)) != Preimage(RatificationParts(r))
    ensures Preimage(DecisionParts(d)) != Preimage(RatificationParts(r))
  {
    FirstParts(p, a, d, r);
    TagsDiffer();
    hide *;
    TellApart(PacketParts(p), AnnotationParts(a));
    TellApart(PacketParts(p), DecisionParts(d));
    TellApart(PacketParts(p), RatificationParts(r));
    TellApart(AnnotationParts(a), DecisionParts(d));
    TellApart(AnnotationParts(a), RatificationParts(r));
    TellApart(DecisionParts(d), RatificationParts(r));
  }

  lemma TellApart(x: seq<Part>, y: seq<Part>)
    requires |x| > 0 && |y| > 0 && x[0] != y[0]
    ensures Preimage(x) != Preimage(y)
  {
    if Preimage(x) == Preimage(y) {
      PreimageInjective(x, y);
      assert false;
    }
  }

  lemma TagsDiffer()
    ensures PACKET_TAG != ANNOTATION_TAG && PACKET_TAG != DECISION_TAG && PACKET_TAG != RATIFICATION_TAG
    ensures ANNOTATION_TAG != DECISION_TAG && ANNOTATION_TAG != RATIFICATION_TAG && DECISION_TAG != RATIFICATION_TAG
  {
    assert PACKET_TAG[8] == 'a' && ANNOTATION_TAG[8] == 'a' && DECISION_TAG[8] == 'a' && RATIFICATION_TAG[8] == 'r';
    assert PACKET_TAG[9] == 'd' && ANNOTATION_TAG[9] == 'n' && DECISION_TAG[9] == 'd';
    assert PACKET_TAG[21] == 'p' && DECISION_TAG[21] == 'd';
  }

  lemma FirstParts(p: Packet, a: Annotation, d: Decision, r: Ratification)
    ensures |PacketParts(p)| > 0 && PacketParts(p)[0] == Some(PACKET_TAG)
    ensures |AnnotationParts(a)| > 0 && AnnotationParts(a)[0] == Some(ANNOTATION_TAG)
    ensures |DecisionParts(d)| > 0 && DecisionParts(d)[0] == Some(DECISION_TAG)
    ensures |RatificationParts(r)| > 0 && RatificationParts(r)[0] == Some(RATIFICATION_TAG)
  {
    FirstLaid(PacketHead(p));
    FirstLaid(AnnotationHead(a));
    FirstLaid(DecisionHead(d));
    FirstLaid(RatificationGroups(r));
  }

  lemma FirstLaid(groups: seq<seq<Value>>)
    requires |groups| > 0 && |groups[0]| > 0
    ensures |Laid(groups)| > 0 && Laid(groups)[0] == TextOf(groups[0][0])
  {
  }
}
