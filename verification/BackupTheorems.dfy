/** What holds over every run of a backup set. */
module BackupTheorems {
  import opened Options
  import opened Text
  import opened BackupProtocol

  // ---- Statements and objects

  lemma PutKeeps(care: Care, hash: Hash, d: Descriptor, s: State, e: Event)
    requires Inv(hash, d, s) && Enabled(care, hash, d, s, e) && e.Put?
    ensures Inv(hash, d, Effect(hash, d, s, e))
  {
    hide IsArchive, AreParts, CountersOk, DescriptorOk;
  }

  lemma PartsKeep(care: Care, hash: Hash, d: Descriptor, s: State, s': State)
    requires ChecksOk(hash, d, s) && s'.checks == s.checks && s.rows <= s'.rows && s'.status == s.status
    requires s.uploaded.chunks == |d.chunks| ==> s'.uploaded == s.uploaded
    ensures ChecksOk(hash, d, s')
  {
    hide IsArchive, AreParts;
    forall id | id in s'.checks ensures CheckOk(hash, d, s', s'.checks[id]) {
      assert CheckOk(hash, d, s, s.checks[id]);
    }
  }

  lemma RefusedKeeps(hash: Hash, d: Descriptor, s: State, key: string)
    requires Inv(hash, d, s) && key in s.puts
    ensures Inv(hash, d, s.(puts := s.puts - {key}, doomed := s.doomed + {key}))
  {
    hide IsArchive, AreParts, CountersOk, DescriptorOk;
    var s' := s.(puts := s.puts - {key}, doomed := s.doomed + {key});
    PartsKeep(Care(true, true), hash, d, s, s');
  }

  /** A row under a key that was put and never on record. */
  lemma RowAdded(d: Descriptor, s: State, i: nat, row: Row, s': State)
    requires RowsOk(s, d) && PutsOk(s) && i < |d.chunks| && RowMatches(row, d.chunks[i]) && row.key in s.puts
    requires s'.rows == s.rows + {(i, row)} && s'.inventory == s.inventory[i := row] && s'.used == s.used
    ensures RowsOk(s', d)
  {
  }

  lemma PutsLeft(s: State, key: string, i: nat, row: Row, s': State)
    requires PutsOk(s) && key in s.puts && row.key == key && s'.puts == s.puts - {key}
    requires s'.rows == s.rows + {(i, row)} && s'.used == s.used && s'.objects == s.objects
    requires forall k :: k in s'.doomed ==> k in s.doomed || k == key || exists p :: p in s.rows && p.1.key == k
    ensures PutsOk(s')
  {
  }

  lemma DoomedAfter(d: Descriptor, s: State, i: nat, row: Row, s': State, told: bool)
    requires DoomedOk(s) && PutsOk(s) && RowsOk(s, d) && row.key in s.puts && s'.used == s.used
    requires s'.inventory == s.inventory[i := row]
    requires if told then s'.lost == s.lost && (s'.doomed == s.doomed || (i in s.inventory && s'.doomed == s.doomed + {s.inventory[i].key}))
             else s'.lost == s.lost + {row.key} && s'.doomed == s.doomed + {row.key}
    ensures DoomedOk(s')
  {
    forall j | j in s'.inventory && s'.inventory[j].key in s'.doomed ensures s'.inventory[j].key in s'.lost {
      if j != i && i in s.inventory {
        assert (i, s.inventory[i]) in s.rows && (j, s.inventory[j]) in s.rows;
      }
    }
  }

  lemma InsertKeeps(care: Care, hash: Hash, d: Descriptor, s: State, e: Event)
    requires Inv(hash, d, s) && Enabled(care, hash, d, s, e) && e.Insert?
    ensures Inv(hash, d, Effect(hash, d, s, e))
  {
    hide IsArchive, AreParts, CountersOk, SizeOf, RowsOk, PutsOk, DoomedOk, ChecksOk;
    if e.seen.chunks in s.inventory {
      RefusedKeeps(hash, d, s, e.key);
    } else {
      var s', body := Effect(hash, d, s, e), s.puts[e.key];
      var row := RowOf(hash, e.key, body);
      CountersOf(s.past, s.uploaded, d, e.seen);
      if s.status == Uploading {
        CountersGrow(s.past, s.uploaded, d);
      }
      RowAdded(d, s, e.seen.chunks, row, s');
      PutsLeft(s, e.key, e.seen.chunks, row, s');
      DoomedAfter(d, s, e.seen.chunks, row, s', e.heard);
      PartsKeep(care, hash, d, s, s');
    }
  }

  lemma RepairKeeps(care: Care, hash: Hash, d: Descriptor, s: State, e: Event)
    requires Inv(hash, d, s) && Enabled(care, hash, d, s, e) && e.Repair?
    ensures Inv(hash, d, Effect(hash, d, s, e))
  {
    hide IsArchive, AreParts, CountersOk, SizeOf, PutsOk, DoomedOk, ChecksOk;
    if e.index !in s.inventory || s.inventory[e.index].key != e.seenRow.key {
      RefusedKeeps(hash, d, s, e.key);
    } else {
      var s' := Effect(hash, d, s, e);
      var row := RowOf(hash, e.key, s.puts[e.key]);
      assert (e.index, s.inventory[e.index]) in s.rows;
      RowAdded(d, s, e.index, row, s');
      PutsLeft(s, e.key, e.index, row, s');
      DoomedAfter(d, s, e.index, row, s', e.heard);
      PartsKeep(care, hash, d, s, s');
    }
  }

  lemma ObjectsKeep(care: Care, hash: Hash, d: Descriptor, s: State, e: Event)
    requires Inv(hash, d, s) && Enabled(care, hash, d, s, e) && (e.Drop? || e.DeleteObject? || e.Retire?)
    ensures Inv(hash, d, Effect(hash, d, s, e))
  {
    hide IsArchive, AreParts, CountersOk, DescriptorOk;
    var s' := Effect(hash, d, s, e);
    if e.DeleteObject? {
      assert CheckOk(hash, d, s, s.checks[e.id]);
    }
    PartsKeep(care, hash, d, s, s');
  }

  // ---- Completions

  lemma MorePartsRead(hash: Hash, d: Descriptor, parts: seq<Bytes>, row: Row, answer: Option<Bytes>)
    requires AreParts(hash, d, parts) && |parts| < |d.chunks| && RowMatches(row, d.chunks[|parts|])
    ensures var c := ObjectRead(hash, parts, row, answer); c.Reading? ==> AreParts(hash, d, c.parts) && c.row.None?
  {
  }

  lemma AllReadVerifies(hash: Hash, d: Descriptor, parts: seq<Bytes>)
    requires DescriptorOk(d) && AreParts(hash, d, parts) && |parts| == |d.chunks|
    ensures var c := AllRead(hash, d, parts);
            c == (if hash(Concat(parts)) == d.sha256 then Verified(parts) else Failing)
  {
    PartsAddUp(hash, d, parts);
  }

  /** One check goes on; nothing else changes. */
  lemma CheckGoesOn(hash: Hash, d: Descriptor, s: State, id: CallId, c: Check)
    requires Inv(hash, d, s) && CheckOk(hash, d, s, c)
    ensures Inv(hash, d, s.(checks := s.checks[id := c]))
  {
    hide IsArchive, AreParts, CountersOk, PutsOk, DoomedOk, RowsOk, FilledOk, DescriptorOk;
    var s' := s.(checks := s.checks[id := c]);
    assert RowsOk(s', d) && FilledOk(s', d) && PutsOk(s') && DoomedOk(s') by { SameRows(d, s, s'); }
    forall i | i in s'.checks ensures CheckOk(hash, d, s', s'.checks[i]) {
      SameCheck(hash, d, s, s', if i == id then c else s.checks[i]);
    }
  }

  lemma SameRows(d: Descriptor, s: State, s': State)
    requires s' == s.(checks := s'.checks) && RowsOk(s, d) && FilledOk(s, d) && PutsOk(s) && DoomedOk(s)
    ensures RowsOk(s', d) && FilledOk(s', d) && PutsOk(s') && DoomedOk(s')
  {
  }

  lemma SameCheck(hash: Hash, d: Descriptor, s: State, s': State, c: Check)
    requires s'.rows == s.rows && s'.status == s.status && s'.uploaded == s.uploaded && CheckOk(hash, d, s, c)
    ensures CheckOk(hash, d, s', c)
  {
    hide IsArchive, AreParts;
  }

  lemma NextOfCheck(care: Care, hash: Hash, d: Descriptor, s: State, e: Event) returns (c: Check)
    requires Inv(hash, d, s) && Enabled(care, hash, d, s, e)
    requires e.StartCheck? || e.ReadRow? || e.ReadObject? || e.FinishReading? || e.GiveUp? || e.LoadKeys?
    ensures CheckOk(hash, d, s, c) && Effect(hash, d, s, e) == s.(checks := s.checks[e.id := c])
  {
    hide SizeOf, CountersOk, PutsOk, DoomedOk, Concat, FilledOk;
    c := Effect(hash, d, s, e).checks[e.id];
    if e.StartCheck? {
      CountersOf(s.past, s.uploaded, d, e.seen);
    } else if e.ReadObject? {
      assert CheckOk(hash, d, s, s.checks[e.id]);
      MorePartsRead(hash, d, s.checks[e.id].parts, s.checks[e.id].row.value, e.answer);
    } else if e.FinishReading? {
      assert CheckOk(hash, d, s, s.checks[e.id]);
      AllReadVerifies(hash, d, s.checks[e.id].parts);
    } else if e.LoadKeys? {
      assert CheckOk(hash, d, s, s.checks[e.id]);
      forall k | k in c.keys ensures exists p :: p in s.rows && p.1.key == k {
        var i :| i in s.inventory && s.inventory[i].key == k;
        assert (i, s.inventory[i]) in s.rows && (i, s.inventory[i]).1.key == k;
      }
    } else if e.ReadRow? {
      assert CheckOk(hash, d, s, s.checks[e.id]);
    }
  }

  lemma ReadingKeeps(care: Care, hash: Hash, d: Descriptor, s: State, e: Event)
    requires Inv(hash, d, s) && Enabled(care, hash, d, s, e)
    requires e.StartCheck? || e.ReadRow? || e.ReadObject? || e.FinishReading? || e.GiveUp? || e.LoadKeys?
    ensures Inv(hash, d, Effect(hash, d, s, e))
  {
    hide Inv, CheckOk, Enabled, Effect;
    var c := NextOfCheck(care, hash, d, s, e);
    CheckGoesOn(hash, d, s, e.id, c);
  }

  lemma StatusKeeps(care: Care, hash: Hash, d: Descriptor, s: State, e: Event)
    requires Inv(hash, d, s) && Enabled(care, hash, d, s, e) && (e.Close? || e.MarkFailed? || e.Expire?)
    ensures Inv(hash, d, Effect(hash, d, s, e))
  {
    hide IsArchive, AreParts, CountersOk, PutsOk, DoomedOk, RowsOk, DescriptorOk;
    var s' := Effect(hash, d, s, e);
    if e.Close? {
      assert CheckOk(hash, d, s, s.checks[e.id]);
      assert IsArchive(hash, d, s.checks[e.id].parts);
    }
    assert RowsOk(s', d) && PutsOk(s') && DoomedOk(s') by { SameStatements(d, s, s'); }
    forall id | id in s'.checks ensures CheckOk(hash, d, s', s'.checks[id]) {
      assert CheckOk(hash, d, s, s.checks[id]);
    }
  }

  lemma SameStatements(d: Descriptor, s: State, s': State)
    requires s' == s.(checks := s'.checks, status := s'.status) && RowsOk(s, d) && PutsOk(s) && DoomedOk(s)
    ensures RowsOk(s', d) && PutsOk(s') && DoomedOk(s')
  {
  }

  lemma StepKeepsInv(care: Care, hash: Hash, d: Descriptor, s: State, e: Event)
    requires Inv(hash, d, s)
    ensures Inv(hash, d, Next(care, hash, d, s, e))
  {
    hide Inv, Enabled, Effect;
    if Enabled(care, hash, d, s, e) {
      if e.Put? { PutKeeps(care, hash, d, s, e); }
      else if e.Insert? { InsertKeeps(care, hash, d, s, e); }
      else if e.Repair? { RepairKeeps(care, hash, d, s, e); }
      else if e.Drop? || e.DeleteObject? || e.Retire? { ObjectsKeep(care, hash, d, s, e); }
      else if e.Close? || e.MarkFailed? || e.Expire? { StatusKeeps(care, hash, d, s, e); }
      else { ReadingKeeps(care, hash, d, s, e); }
    }
  }

  lemma {:induction false} RunKeepsInv(care: Care, hash: Hash, d: Descriptor, s: State, events: seq<Event>)
    requires Inv(hash, d, s)
    ensures Inv(hash, d, Run(care, hash, d, s, events))
    decreases |events|
  {
    hide Inv, Next;
    if |events| > 0 {
      RunKeepsInv(care, hash, d, s, events[..|events| - 1]);
      StepKeepsInv(care, hash, d, Run(care, hash, d, s, events[..|events| - 1]), events[|events| - 1]);
    }
  }

  lemma ReachableInv(care: Care, hash: Hash, d: Descriptor, s: State)
    requires DescriptorOk(d) && Reachable(care, hash, d, s)
    ensures Inv(hash, d, s)
  {
    hide Run;
    var events :| Run(care, hash, d, Created(), events) == s;
    InvCreated(hash, d);
    RunKeepsInv(care, hash, d, Created(), events);
  }

  // ---- The theorems

  /** Under uploads and repairs that act on old reads, in any interleaving: while the set takes
      uploads, its inventory is exactly the chunks that the counters count, as declared. */
  lemma UploadInvariant(care: Care, hash: Hash, d: Descriptor, s: State)
    requires DescriptorOk(d) && Reachable(care, hash, d, s) && s.status == Uploading
    ensures forall i :: i in s.inventory <==> 0 <= i < s.uploaded.chunks
    ensures s.uploaded.chunks <= |d.chunks| && s.uploaded.bytes == SizeOf(d.chunks, s.uploaded.chunks)
    ensures forall i :: i in s.inventory ==> RowMatches(s.inventory[i], d.chunks[i])
  {
    ReachableInv(care, hash, d, s);
  }

  /** A complete set has every declared chunk on record, and some completion has read the
      whole declared archive, row by row and object by object, whatever happened meanwhile. */
  lemma CompleteMeansVerified(care: Care, hash: Hash, d: Descriptor, s: State) returns (archive: seq<Bytes>)
    requires DescriptorOk(d) && Reachable(care, hash, d, s) && s.status == Complete
    ensures IsArchive(hash, d, archive)
    ensures forall i :: 0 <= i < |d.chunks| ==> i in s.inventory && RowMatches(s.inventory[i], d.chunks[i])
    ensures s.uploaded == Full(d)
  {
    ReachableInv(care, hash, d, s);
    archive :| IsArchive(hash, d, archive);
  }

  // ---- What becomes of the objects

  predicate Readable(hash: Hash, s: State, row: Row) {
    row.key in s.objects && Describes(hash, row, s.objects[row.key])
  }

  /** Every chunk on record can be read back. */
  ghost predicate AllReadable(hash: Hash, s: State) {
    forall i :: i in s.inventory ==> Readable(hash, s, s.inventory[i])
  }

  /** Whatever the run, a check whose mark changed the set deletes nothing of a set that is
      in use: the set is retired, and stays so. */
  lemma ChangedMarkRetires(care: Care, hash: Hash, d: Descriptor, s: State, id: CallId)
    requires DescriptorOk(d) && Reachable(care, hash, d, s)
    requires id in s.checks && s.checks[id].Deleting?
    ensures s.checks[id].changed ==> Retired(s.status)
    ensures s.status != Uploading
  {
    ReachableInv(care, hash, d, s);
    assert CheckOk(hash, d, s, s.checks[id]);
  }

  /** A check that has failed goes on to delete the objects of the set, whatever the set has
      become: it deletes those of a complete set if and only if its mark, which is guarded,
      changed nothing. */
  lemma FailureSparesExactly(hash: Hash, d: Descriptor, s: State, id: CallId, i: nat)
    requires Inv(hash, d, s) && id in s.checks && s.checks[id].Failing? && i in s.inventory
    ensures var care := Care(true, false);
            var marked := Next(care, hash, d, s, MarkFailed(id));
            var loaded := Next(care, hash, d, marked, LoadKeys(id));
            var after := Next(care, hash, d, loaded, DeleteObject(id, s.inventory[i].key));
            && after.inventory == s.inventory && !Readable(hash, after, after.inventory[i])
            && marked.checks[id].Marked?
            && (marked.checks[id].changed <==> s.status == Uploading)
            && (after.status == Complete <==> s.status == Complete)
            && (s.status == Uploading || s.status == Complete ==>
                  (after.status == Complete <==> !marked.checks[id].changed))
  {
    hide Inv, Describes;
    var care := Care(true, false);
    var marked := Next(care, hash, d, s, MarkFailed(id));
    assert marked.checks[id] == Marked(s.status == Uploading);
    var loaded := Next(care, hash, d, marked, LoadKeys(id));
    assert loaded.checks[id] == Deleting(KeysOf(s.inventory), s.status == Uploading);
    assert s.inventory[i].key in KeysOf(s.inventory);
  }

  /** The objects of a set that is kept, when callers are told the truth and nothing is deleted
      after a mark that changed nothing. */
  ghost predicate Kept(hash: Hash, s: State) {
    && s.lost == {}
    && (forall id :: id in s.checks && s.checks[id].Deleting? ==> s.checks[id].changed)
    && (!Retired(s.status) ==> AllReadable(hash, s))
  }

  lemma PutKeepsObjects(hash: Hash, d: Descriptor, s: State, key: string, body: Bytes)
    requires RowsOk(s, d) && AllReadable(hash, s) && key !in s.used
    ensures AllReadable(hash, s.(objects := s.objects[key := body], puts := s.puts[key := body], used := s.used + {key}))
  {
    forall i | i in s.inventory ensures s.inventory[i].key != key {
      assert (i, s.inventory[i]) in s.rows;
    }
  }

  lemma RowKeepsObjects(hash: Hash, s: State, i: nat, key: string, s': State)
    requires PutsOk(s) && AllReadable(hash, s) && key in s.puts
    requires s'.objects == s.objects && s'.inventory == s.inventory[i := RowOf(hash, key, s.puts[key])]
    ensures AllReadable(hash, s')
  {
    forall j | j in s'.inventory ensures Readable(hash, s', s'.inventory[j]) {
      if j != i {
        assert Readable(hash, s, s.inventory[j]);
      }
    }
  }

  lemma StatementsKeepObjects(hash: Hash, d: Descriptor, s: State, e: Event)
    requires Inv(hash, d, s) && Kept(hash, s) && Enabled(Care(true, true), hash, d, s, e)
    requires e.Put? || e.Insert? || e.Repair?
    ensures Kept(hash, Effect(hash, d, s, e))
  {
    hide IsArchive, AreParts, CountersOk, DescriptorOk, ChecksOk, DoomedOk, FilledOk, AllReadable, RowsOk, PutsOk, RowOf, Describes;
    var s' := Effect(hash, d, s, e);
    if !Retired(s.status) {
      if e.Put? {
        PutKeepsObjects(hash, d, s, e.key, e.body);
      } else {
        var i := if e.Insert? then e.seen.chunks else e.index;
        if s'.inventory == s.inventory {
          SameObjects(hash, s, s');
        } else {
          RowKeepsObjects(hash, s, i, e.key, s');
        }
      }
    }
  }

  lemma SameObjects(hash: Hash, s: State, s': State)
    requires s'.objects == s.objects && s'.inventory == s.inventory && AllReadable(hash, s)
    ensures AllReadable(hash, s')
  {
    forall i | i in s'.inventory ensures Readable(hash, s', s'.inventory[i]) {
      assert Readable(hash, s, s.inventory[i]);
    }
  }

  lemma DeletionsKeepObjects(hash: Hash, d: Descriptor, s: State, e: Event)
    requires Inv(hash, d, s) && Kept(hash, s) && Enabled(Care(true, true), hash, d, s, e)
    requires e.Drop? || e.DeleteObject? || e.Retire?
    ensures Kept(hash, Effect(hash, d, s, e))
  {
    hide IsArchive, AreParts, CountersOk, DescriptorOk, PutsOk, FilledOk, RowsOk;
    var s' := Effect(hash, d, s, e);
    if e.DeleteObject? {
      assert CheckOk(hash, d, s, s.checks[e.id]);
    }
    if !Retired(s'.status) {
      forall i | i in s'.inventory ensures Readable(hash, s', s'.inventory[i]) {
        assert Readable(hash, s, s.inventory[i]);
      }
    }
  }

  lemma ChecksKeepObjects(hash: Hash, d: Descriptor, s: State, e: Event)
    requires Inv(hash, d, s) && Kept(hash, s) && Enabled(Care(true, true), hash, d, s, e)
    requires !(e.Put? || e.Insert? || e.Repair? || e.Drop? || e.DeleteObject? || e.Retire?)
    ensures Kept(hash, Effect(hash, d, s, e))
  {
    hide Inv, InventoryComplete;
    var s' := Effect(hash, d, s, e);
    assert s'.objects == s.objects && s'.inventory == s.inventory;
  }

  lemma {:induction false} RunKeepsObjects(hash: Hash, d: Descriptor, events: seq<Event>)
    requires DescriptorOk(d)
    ensures var s := Run(Care(true, true), hash, d, Created(), events); Inv(hash, d, s) && Kept(hash, s)
    decreases |events|
  {
    hide Inv, Kept, Enabled, Effect;
    var care := Care(true, true);
    if |events| == 0 {
      InvCreated(hash, d);
      CreatedIsKept(hash);
    } else {
      var s, e := Run(care, hash, d, Created(), events[..|events| - 1]), events[|events| - 1];
      RunKeepsObjects(hash, d, events[..|events| - 1]);
      StepKeepsInv(care, hash, d, s, e);
      if Enabled(care, hash, d, s, e) {
        if e.Put? || e.Insert? || e.Repair? { StatementsKeepObjects(hash, d, s, e); }
        else if e.Drop? || e.DeleteObject? || e.Retire? { DeletionsKeepObjects(hash, d, s, e); }
        else { ChecksKeepObjects(hash, d, s, e); }
      }
    }
  }

  lemma CreatedIsKept(hash: Hash)
    ensures Kept(hash, Created())
  {
  }

  /** Then a complete set can always be read back, chunk by chunk as declared. */
  lemma CompleteSetsReadBack(hash: Hash, d: Descriptor, s: State)
    requires DescriptorOk(d) && Reachable(Care(true, true), hash, d, s) && s.status == Complete
    ensures forall i :: 0 <= i < |d.chunks| ==>
              i in s.inventory && Readable(hash, s, s.inventory[i]) && RowMatches(s.inventory[i], d.chunks[i])
  {
    hide Run;
    var events :| Run(Care(true, true), hash, d, Created(), events) == s;
    RunKeepsObjects(hash, d, events);
    var archive := CompleteMeansVerified(Care(true, true), hash, d, s);
  }
}
