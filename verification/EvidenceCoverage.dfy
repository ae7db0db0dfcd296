/** Two annotations that cover one packet have the same sentences and tokens. */
module EvidenceCoverage {
  import opened Options
  import opened Evidence
  import opened Sets

  function UpTo(n: nat): (s: set<int>)
    ensures forall x :: x in s <==> 1 <= x <= n
    ensures |s| == n
  {
    if n == 0 then {} else UpTo(n - 1) + {n}
  }

  lemma {:induction false} DistinctIds(ts: seq<AnnotatedToken>)
    requires DistinctTokens(ts)
    ensures |AnnotatedIds(ts)| == |ts|
  {
    if |ts| > 0 {
      var before := ts[..|ts| - 1];
      DistinctIds(before);
      assert forall k :: 0 <= k < |before| ==> before[k] == ts[k];
    }
  }

  /** n distinct numbers from 1 to n leave none out. */
  lemma EveryNumber(ts: seq<AnnotatedToken>, n: nat, x: int) returns (k: nat)
    requires NumberedTo(ts, n) && 1 <= x <= n
    ensures k < |ts| && ts[k].tokenId == x
  {
    DistinctIds(ts);
    forall id | id in AnnotatedIds(ts) ensures id in UpTo(n) {
      var j :| 0 <= j < |ts| && ts[j].tokenId == id;
    }
    FullSubset(AnnotatedIds(ts), UpTo(n));
    assert x in AnnotatedIds(ts);
    k :| 0 <= k < |ts| && ts[k].tokenId == x;
  }

  function SentenceIds(ss: seq<AnnotatedSentence>): (ids: set<string>)
    ensures forall k :: 0 <= k < |ss| ==> ss[k].sentenceId in ids
    ensures |ids| <= |ss|
  {
    if |ss| == 0 then {} else SentenceIds(ss[..|ss| - 1]) + {ss[|ss| - 1].sentenceId}
  }

  function PacketIds(ss: seq<Sentence>): (ids: set<string>)
    ensures forall id :: id in ids ==> exists k :: 0 <= k < |ss| && ss[k].sentenceId == id
  {
    if |ss| == 0 then {}
    else
      var before := PacketIds(ss[..|ss| - 1]);
      assert forall k :: 0 <= k < |ss| - 1 ==> ss[..|ss| - 1][k] == ss[k];
      before + {ss[|ss| - 1].sentenceId}
  }

  lemma {:induction false} DistinctPacketIds(ss: seq<Sentence>)
    requires DistinctSentences(ss)
    ensures |PacketIds(ss)| == |ss|
  {
    if |ss| > 0 {
      var before := ss[..|ss| - 1];
      DistinctPacketIds(before);
      assert forall k :: 0 <= k < |before| ==> before[k] == ss[k];
    }
  }

  /** Every sentence of a covering annotation is one of the packet's, annotated in full. */
  lemma Source(p: Packet, ss: seq<AnnotatedSentence>, k: nat) returns (i: nat)
    requires PacketOk(p) && Covers(p, ss) && k < |ss|
    ensures i < |p.sentences| && Annotates(ss[k], p.sentences[i])
  {
    hide SentenceOk, NumberedTo;
    DistinctPacketIds(p.sentences);
    forall id | id in PacketIds(p.sentences) ensures id in SentenceIds(ss) {
      var j :| 0 <= j < |p.sentences| && p.sentences[j].sentenceId == id;
      assert Annotated(ss, p.sentences[j]);
    }
    FullSubset(PacketIds(p.sentences), SentenceIds(ss));
    i :| 0 <= i < |p.sentences| && p.sentences[i].sentenceId == ss[k].sentenceId;
    assert Annotated(ss, p.sentences[i]);
  }

  /** The sentence of another annotation with the same identifier and the same tokens. */
  lemma Counterpart(p: Packet, xs: seq<AnnotatedSentence>, ys: seq<AnnotatedSentence>, i: nat) returns (k: nat)
    requires PacketOk(p) && Covers(p, xs) && Covers(p, ys) && i < |xs|
    ensures k < |ys| && ys[k].sentenceId == xs[i].sentenceId
    ensures NumberedTo(xs[i].tokens, |xs[i].tokens|) && NumberedTo(ys[k].tokens, |xs[i].tokens|)
  {
    hide SentenceOk;
    var s := Source(p, xs, i);
    assert Annotated(ys, p.sentences[s]);
    k :| 0 <= k < |ys| && Annotates(ys[k], p.sentences[s]);
  }

  /** The token of another annotation with the same identifier. */
  lemma TokenCounterpart(xs: seq<AnnotatedToken>, ys: seq<AnnotatedToken>, i: nat) returns (k: nat)
    requires NumberedTo(xs, |xs|) && NumberedTo(ys, |xs|) && i < |xs|
    ensures k < |ys| && ys[k].tokenId == xs[i].tokenId
  {
    k := EveryNumber(ys, |xs|, xs[i].tokenId);
  }
}
