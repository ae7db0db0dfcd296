/** Why a complete set is not always readable: two runs that delete its objects. */
module BackupHypotheses {
  import opened Options
  import opened Text
  import opened BackupProtocol
  import opened BackupTheorems

  lemma ReachableCreated(care: Care, hash: Hash, d: Descriptor)
    ensures Reachable(care, hash, d, Created())
  {
    assert Run(care, hash, d, Created(), []) == Created();
  }

  lemma ReachableNext(care: Care, hash: Hash, d: Descriptor, s: State, e: Event) returns (s': State)
    requires Reachable(care, hash, d, s) && Enabled(care, hash, d, s, e)
    ensures s' == Effect(hash, d, s, e) && Reachable(care, hash, d, s')
  {
    hide Enabled, Effect;
    var events :| Run(care, hash, d, Created(), events) == s;
    var more := events + [e];
    assert more[..|more| - 1] == events;
    assert Run(care, hash, d, Created(), more) == Effect(hash, d, s, e);
    s' := Effect(hash, d, s, e);
  }

  const BODY: Bytes := [1]

  /** An archive of one chunk. */
  function OneChunk(hash: Hash): Descriptor {
    Descriptor([Chunk(1, hash(BODY))], 1, hash(BODY))
  }

  lemma OneChunkOk(hash: Hash)
    ensures DescriptorOk(OneChunk(hash)) && Concat([BODY]) == BODY
    ensures Full(OneChunk(hash)) == Counters(1, 1)
  {
    assert SizeOf(OneChunk(hash).chunks, 1) == SizeOf(OneChunk(hash).chunks, 0) + 1;
    assert [BODY][..0] == [];
    assert Concat([]) == [];
    assert Concat([BODY]) == [] + BODY;
  }

  /** The chunk is on record; whether its upload was told so is left open. */
  ghost predicate Uploaded(hash: Hash, s: State) {
    && s.status == Uploading && s.uploaded == Counters(1, 1) && s.uploaded in s.past
    && s.inventory == map[0 := RowOf(hash, "k", BODY)] && "k" in s.objects && s.objects["k"] == BODY
  }

  lemma UploadIt(care: Care, hash: Hash, heard: bool) returns (s: State)
    requires care.told ==> heard
    ensures Reachable(care, hash, OneChunk(hash), s) && Uploaded(hash, s) && s.checks == map[]
    ensures s.doomed == if heard then {} else {"k"}
  {
    hide Reachable;
    var d := OneChunk(hash);
    OneChunkOk(hash);
    ReachableCreated(care, hash, d);
    s := ReachableNext(care, hash, d, Created(), Put("k", BODY));
    s := ReachableNext(care, hash, d, s, Insert(Counters(0, 0), "k", heard));
    assert s.inventory == map[0 := RowOf(hash, "k", BODY)];
  }

  lemma StartIt(care: Care, hash: Hash, s: State, id: CallId) returns (s': State)
    requires Reachable(care, hash, OneChunk(hash), s) && Uploaded(hash, s) && id !in s.checks
    ensures Reachable(care, hash, OneChunk(hash), s') && Uploaded(hash, s')
    ensures s' == s.(checks := s.checks[id := Reading([], Some(RowOf(hash, "k", BODY)))])
  {
    hide Reachable;
    var d := OneChunk(hash);
    OneChunkOk(hash);
    s' := ReachableNext(care, hash, d, s, StartCheck(id, Counters(1, 1)));
    s' := ReachableNext(care, hash, d, s', ReadRow(id));
    assert s' == s.(checks := s.checks[id := Reading([], Some(RowOf(hash, "k", BODY)))]);
  }

  /** One completion reads the chunk and verifies. */
  lemma VerifyIt(care: Care, hash: Hash, s: State, id: CallId) returns (s': State)
    requires Reachable(care, hash, OneChunk(hash), s) && Uploaded(hash, s)
    requires id in s.checks && s.checks[id] == Reading([], Some(RowOf(hash, "k", BODY)))
    ensures Reachable(care, hash, OneChunk(hash), s')
    ensures s' == s.(checks := s.checks[id := Verified([BODY])])
  {
    hide Reachable, Concat;
    var d := OneChunk(hash);
    OneChunkOk(hash);
    s' := ReachableNext(care, hash, d, s, ReadObject(id, Some(BODY)));
    assert [] + [BODY] == [BODY];
    assert s'.checks[id] == Reading([BODY], None);
    s' := ReachableNext(care, hash, d, s', FinishReading(id));
    assert s' == s.(checks := s.checks[id := Verified([BODY])]);
  }

  /** Two completions overlap. One closes the set; the other, whose read fails for once, marks
      nothing and deletes the chunk of the complete set. */
  lemma OverlappingCompletionDeletes(hash: Hash) returns (s: State)
    ensures Reachable(Care(true, false), hash, OneChunk(hash), s)
    ensures s.status == Complete && 0 in s.inventory && !Readable(hash, s, s.inventory[0])
  {
    hide Reachable;
    var care, d := Care(true, false), OneChunk(hash);
    s := UploadIt(care, hash, true);
    s := StartIt(care, hash, s, 0);
    s := StartIt(care, hash, s, 1);
    s := VerifyIt(care, hash, s, 0);
    assert s.checks[1] == Reading([], Some(RowOf(hash, "k", BODY)));
    s := ReachableNext(care, hash, d, s, ReadObject(1, None));
    s := ReachableNext(care, hash, d, s, Close(0));
    assert s.status == Complete && s.checks == map[1 := Failing] && s.inventory == map[0 := RowOf(hash, "k", BODY)];
    hide Uploaded;
    s := DeleteIt(care, hash, d, s);
  }

  lemma DeleteIt(care: Care, hash: Hash, d: Descriptor, s: State) returns (s': State)
    requires !care.guarded && Reachable(care, hash, d, s) && s.status == Complete && s.checks == map[1 := Failing]
    requires s.inventory == map[0 := RowOf(hash, "k", BODY)]
    ensures Reachable(care, hash, d, s')
    ensures s'.status == Complete && s'.inventory == s.inventory && !Readable(hash, s', s'.inventory[0])
  {
    hide Reachable;
    s' := ReachableNext(care, hash, d, s, MarkFailed(1));
    s' := ReachableNext(care, hash, d, s', LoadKeys(1));
    assert s.inventory[0].key in KeysOf(s'.inventory);
    s' := ReachableNext(care, hash, d, s', DeleteObject(1, "k"));
  }

  /** The upload's statement goes through, its reply is lost, and the upload deletes its chunk
      after a completion has read it and closed the set. */
  lemma LostReplyDeletes(hash: Hash) returns (s: State)
    ensures Reachable(Care(false, true), hash, OneChunk(hash), s)
    ensures s.status == Complete && 0 in s.inventory && !Readable(hash, s, s.inventory[0])
  {
    hide Reachable;
    var care, d := Care(false, true), OneChunk(hash);
    s := UploadIt(care, hash, false);
    s := StartIt(care, hash, s, 0);
    s := VerifyIt(care, hash, s, 0);
    s := ReachableNext(care, hash, d, s, Close(0));
    s := ReachableNext(care, hash, d, s, Drop("k"));
  }
}
