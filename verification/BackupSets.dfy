/** Backup sets as the operations of the portal: chunked upload by callers that act on what
    they read earlier, completion against the whole archive, and the retention of completed
    sets. */
module BackupSets {
  import opened Options
  import opened Text
  import opened BackupProtocol
  import opened BackupTheorems

  datatype UploadOutcome = Rejected | AlreadyStored | Repaired | LostLease | Accepted | Refused

  /** Every caller is told the truth; what is deleted is not guarded. */
  const CARE := Care(true, false)

  ghost predicate Reaches(hash: Hash, d: Descriptor, s: State, s': State) {
    exists events :: Run(CARE, hash, d, s, events) == s'
  }

  lemma ReachesItself(hash: Hash, d: Descriptor, s: State)
    ensures Reaches(hash, d, s, s)
  {
    assert Run(CARE, hash, d, s, []) == s;
  }

  lemma ReachesOn(hash: Hash, d: Descriptor, s: State, mid: State, e: Event)
    requires Reaches(hash, d, s, mid) && Enabled(CARE, hash, d, mid, e)
    ensures Reaches(hash, d, s, Effect(hash, d, mid, e))
    ensures Inv(hash, d, mid) ==> Inv(hash, d, Effect(hash, d, mid, e))
  {
    hide Enabled, Effect, Inv;
    var events :| Run(CARE, hash, d, s, events) == mid;
    var more := events + [e];
    assert more[..|more| - 1] == events;
    assert Run(CARE, hash, d, s, more) == Effect(hash, d, mid, e);
    if Inv(hash, d, mid) {
      StepKeepsInv(CARE, hash, d, mid, e);
    }
  }

  /** The chunk that a caller may add next, by the counters it read. */
  predicate IsNext(hash: Hash, d: Descriptor, seen: Counters, index: nat, body: Bytes) {
    |body| > 0 && index == seen.chunks < |d.chunks| && d.chunks[index] == Chunk(|body|, hash(body))
  }

  /** What the reads of a completion found: the rows as they were listed, then each row and
      its object again, every one at a time of its own. */
  datatype Readings = Readings(listed: map<nat, Row>, row: nat -> Option<Row>, stored: nat -> Option<Bytes>)

  predicate ChunkReads(hash: Hash, d: Descriptor, found: Readings, i: nat)
    requires i < |d.chunks|
  {
    && found.row(i).Some? && RowMatches(found.row(i).value, d.chunks[i])
    && found.stored(i).Some? && Describes(hash, found.row(i).value, found.stored(i).value)
  }

  function Bodies(found: Readings, n: nat): (parts: seq<Bytes>)
    ensures |parts| == n
  {
    seq(n, i requires 0 <= i < n => if found.stored(i).Some? then found.stored(i).value else [])
  }

  /** The reads found the declared archive. */
  ghost predicate ReadsVerify(hash: Hash, d: Descriptor, found: Readings) {
    && InventoryComplete(found.listed, d)
    && (forall i :: 0 <= i < |d.chunks| ==> ChunkReads(hash, d, found, i))
    && hash(Concat(Bodies(found, |d.chunks|))) == d.sha256
  }

  /** Chunk i was listed, read again and fetched with its declared size and digest. */
  ghost predicate ChunkStands(hash: Hash, d: Descriptor, found: Readings, i: nat)
    requires i < |d.chunks|
  {
    && i in found.listed && found.row(i).Some? && found.stored(i).Some?
    && found.listed[i].sizeBytes == found.row(i).value.sizeBytes == |found.stored(i).value| == d.chunks[i].sizeBytes
    && found.listed[i].sha256 == found.row(i).value.sha256 == hash(found.stored(i).value) == d.chunks[i].sha256
  }

  /** The reads verify exactly when every declared chunk stands, no other is listed, and the
      bytes together have the declared digest. */
  lemma {:induction false} VerifyMeans(hash: Hash, d: Descriptor, found: Readings)
    ensures ReadsVerify(hash, d, found) <==>
      && (forall i :: i in found.listed ==> i < |d.chunks|)
      && (forall i :: 0 <= i < |d.chunks| ==> ChunkStands(hash, d, found, i))
      && hash(Concat(seq(|d.chunks|, i requires 0 <= i < |d.chunks| =>
                                      if found.stored(i).Some? then found.stored(i).value else []))) == d.sha256
  {
    hide Concat;
    assert Bodies(found, |d.chunks|) == seq(|d.chunks|, i requires 0 <= i < |d.chunks| =>
                                              if found.stored(i).Some? then found.stored(i).value else []);
    if ReadsVerify(hash, d, found) {
      forall i | 0 <= i < |d.chunks| ensures ChunkStands(hash, d, found, i) {
        assert ChunkReads(hash, d, found, i);
      }
    } else if (forall i :: i in found.listed ==> i < |d.chunks|)
              && forall i :: 0 <= i < |d.chunks| ==> ChunkStands(hash, d, found, i) {
      forall i | 0 <= i < |d.chunks|
        ensures ChunkReads(hash, d, found, i) && i in found.listed && RowMatches(found.listed[i], d.chunks[i])
      {
        assert ChunkStands(hash, d, found, i);
      }
      assert InventoryComplete(found.listed, d);
    }
  }

  lemma NoBodies(found: Readings)
    ensures Concat(Bodies(found, 0)) == []
  {
  }

  lemma OneMoreBody(found: Readings, i: nat)
    requires found.stored(i).Some?
    ensures Concat(Bodies(found, i + 1)) == Concat(Bodies(found, i)) + found.stored(i).value
  {
    assert Bodies(found, i + 1)[..i] == Bodies(found, i);
  }

  /** Chunks that read back as declared are the parts of the archive, and as long. */
  lemma ReadsAddUp(hash: Hash, d: Descriptor, found: Readings)
    requires DescriptorOk(d) && forall k :: 0 <= k < |d.chunks| ==> ChunkReads(hash, d, found, k)
    ensures var parts := Bodies(found, |d.chunks|);
            && |Concat(parts)| == d.sizeBytes
            && (hash(Concat(parts)) == d.sha256 ==> IsArchive(hash, d, parts))
  {
    hide Concat;
    var parts := Bodies(found, |d.chunks|);
    forall i | 0 <= i < |parts| ensures |parts[i]| == d.chunks[i].sizeBytes && hash(parts[i]) == d.chunks[i].sha256 {
      assert ChunkReads(hash, d, found, i);
    }
    PartsAddUp(hash, d, parts);
  }

  class BackupSet {
    const descriptor: Descriptor
    var status: SetStatus
    var uploaded: Counters
    var inventory: map<nat, Row>
    var objects: map<string, Bytes>
    ghost var puts: map<string, Bytes>
    ghost var doomed: set<string>
    ghost var checks: map<CallId, Check>
    ghost var filled: nat
    ghost var past: set<Counters>
    ghost var rows: set<(nat, Row)>
    ghost var used: set<string>
    ghost var lost: set<string>

    ghost function State(): State
      reads this
    {
      BackupProtocol.State(status, uploaded, inventory, objects, puts, doomed, checks, filled, past, rows, used, lost)
    }

    ghost predicate Valid(hash: Hash)
      reads this
    {
      Inv(hash, descriptor, State())
    }

    constructor (hash: Hash, d: Descriptor)
      requires DescriptorOk(d)
      ensures Valid(hash) && descriptor == d && State() == Created()
    {
      descriptor := d;
      status := Uploading;
      uploaded := Counters(0, 0);
      inventory, objects := map[], map[];
      puts, doomed, checks, filled, past, rows, used, lost := map[], {}, map[], 0, {Counters(0, 0)}, {}, {}, {};
      new;
      InvCreated(hash, d);
    }

    ghost method Become(s: State)
      requires s.status == status && s.uploaded == uploaded && s.inventory == inventory && s.objects == objects
      modifies this`puts, this`doomed, this`checks, this`filled, this`past, this`rows, this`used, this`lost
      ensures State() == s
    {
      puts, doomed, checks, filled := s.puts, s.doomed, s.checks, s.filled;
      past, rows, used, lost := s.past, s.rows, s.used, s.lost;
    }

    /** Stores the body of the next chunk and puts it on record, with the counters, in one
        transaction. A row that is there already refuses it, and the object is deleted again.
        The counters are left alone when the set has meanwhile closed. */
    method StoreChunk(hash: Hash, seen: Counters, index: nat, body: Bytes, key: string) returns (stored: bool)
      requires Valid(hash) && seen in past && IsNext(hash, descriptor, seen, index, body)
      requires key !in used && key !in objects
      modifies this
      ensures Valid(hash) && Reaches(hash, descriptor, old(State()), State())
      ensures stored <==> index !in old(inventory)
      ensures if stored then inventory == old(inventory)[index := RowOf(hash, key, body)] && objects == old(objects)[key := body]
              else inventory == old(inventory) && objects == old(objects)
      ensures stored && status == Uploading ==>
                seen == old(uploaded) && uploaded == Counters(old(uploaded).chunks + 1, old(uploaded).bytes + |body|)
      ensures !stored || status != Uploading ==> uploaded == old(uploaded)
      ensures status == old(status)
    {
      hide Inv, Reaches, Run;
      ghost var s0 := State();
      ReachesItself(hash, descriptor, s0);
      objects := objects[key := body];
      ghost var s1 := Effect(hash, descriptor, s0, Put(key, body));
      ReachesOn(hash, descriptor, s0, s0, Put(key, body));
      ghost var s2 := Effect(hash, descriptor, s1, Insert(seen, key, true));
      ReachesOn(hash, descriptor, s0, s1, Insert(seen, key, true));
      FreshInsert(hash, descriptor, s1, seen);
      stored := index !in inventory;
      if stored {
        inventory := inventory[index := Row(key, |body|, hash(body))];
        if status == Uploading {
          uploaded := Counters(seen.chunks + 1, seen.bytes + |body|);
        }
        Become(s2);
      } else {
        objects := objects - {key};
        ReachesOn(hash, descriptor, s0, s2, Drop(key));
        assert (s0.objects[key := body]) - {key} == s0.objects;
        Become(Effect(hash, descriptor, s2, Drop(key)));
      }
    }

    /** Stores the body of a chunk anew, under a new key, for a row that was read earlier. If
        the row still has the key that was read, it gets the new one and the old object is
        deleted; otherwise the repair has lost its lease, and the new object is deleted. */
    method RepairChunk(hash: Hash, index: nat, seenRow: Row, body: Bytes, key: string) returns (repaired: bool)
      requires Valid(hash) && (index, seenRow) in rows && Describes(hash, seenRow, body) && |body| > 0
      requires key !in used && key !in objects
      modifies this
      ensures Valid(hash) && Reaches(hash, descriptor, old(State()), State())
      ensures repaired <==> index in old(inventory) && old(inventory)[index].key == seenRow.key
      ensures if repaired then
                inventory == old(inventory)[index := RowOf(hash, key, body)] && objects == old(objects)[key := body] - {seenRow.key}
              else inventory == old(inventory) && objects == old(objects)
      ensures repaired ==> key in objects && objects[key] == body
      ensures status == old(status) && uploaded == old(uploaded)
    {
      hide Inv, Reaches, Run, Describes;
      ghost var s0 := State();
      RowsAreUsed(hash, descriptor, s0, index, seenRow);
      ReachesItself(hash, descriptor, s0);
      objects := objects[key := body];
      ghost var s1 := Effect(hash, descriptor, s0, Put(key, body));
      ReachesOn(hash, descriptor, s0, s0, Put(key, body));
      ghost var s2 := Effect(hash, descriptor, s1, Repair(index, seenRow, key, true));
      ReachesOn(hash, descriptor, s0, s1, Repair(index, seenRow, key, true));
      repaired := index in inventory && inventory[index].key == seenRow.key;
      ghost var gone := if repaired then seenRow.key else key;
      if repaired {
        inventory := inventory[index := Row(key, |body|, hash(body))];
        objects := objects - {seenRow.key};
      } else {
        objects := objects - {key};
        assert (s0.objects[key := body]) - {key} == s0.objects;
      }
      ReachesOn(hash, descriptor, s0, s2, Drop(gone));
      Become(Effect(hash, descriptor, s2, Drop(gone)));
    }

    /** One upload. The caller has read the counters, the row of the chunk if there was one,
        and what the store then answered for it, each at some earlier time. */
    method UploadBackupChunk(hash: Hash, seen: Counters, existing: Option<Row>, answer: Option<Bytes>,
                             index: nat, body: Bytes, key: string)
      returns (outcome: UploadOutcome)
      requires Valid(hash) && seen in past && (existing.Some? ==> (index, existing.value) in rows)
      requires key !in used && key !in objects
      modifies this
      ensures Valid(hash) && Reaches(hash, descriptor, old(State()), State())
      ensures outcome == Accepted || outcome == Refused <==> existing.None? && IsNext(hash, descriptor, seen, index, body)
      ensures outcome == Refused ==> index in old(inventory)
      ensures outcome == Accepted ==> index !in old(inventory)
      ensures outcome == AlreadyStored || outcome == Repaired || outcome == LostLease <==>
                existing.Some? && |body| > 0 && Describes(hash, existing.value, body)
      ensures outcome == AlreadyStored ==> answer.Some? && Describes(hash, existing.value, answer.value)
      ensures outcome == Repaired || outcome == LostLease ==> !(answer.Some? && Describes(hash, existing.value, answer.value))
      ensures outcome == Repaired ==> index in old(inventory) && old(inventory)[index].key == existing.value.key
      ensures outcome == LostLease ==> !(index in old(inventory) && old(inventory)[index].key == existing.value.key)
      ensures outcome == Accepted || outcome == Repaired ==>
                && inventory == old(inventory)[index := RowOf(hash, key, body)]
                && key in objects && objects[key] == body
      ensures outcome != Accepted && outcome != Repaired ==> inventory == old(inventory) && objects == old(objects)
      ensures outcome == Accepted && status == Uploading ==>
                && seen == old(uploaded)
                && uploaded == Counters(old(uploaded).chunks + 1, old(uploaded).bytes + |body|)
      ensures outcome != Accepted || status != Uploading ==> uploaded == old(uploaded)
    {
      hide Inv, Reaches, Run;
      ReachesItself(hash, descriptor, State());
      if |body| == 0 {
        return Rejected;
      }
      if existing.Some? {
        if existing.value.sizeBytes != |body| || existing.value.sha256 != hash(body) {
          return Rejected;
        }
        if answer.Some? && |answer.value| == |body| && hash(answer.value) == hash(body) {
          return AlreadyStored;
        }
        var repaired := RepairChunk(hash, index, existing.value, body, key);
        return if repaired then Repaired else LostLease;
      }
      if index != seen.chunks || index >= |descriptor.chunks| {
        return Rejected;
      }
      var expected := descriptor.chunks[index];
      WithinTheArchive(hash, descriptor, State(), seen);
      if |body| != expected.sizeBytes || hash(body) != expected.sha256 || seen.bytes + |body| > descriptor.sizeBytes {
        return Rejected;
      }
      var stored := StoreChunk(hash, seen, index, body, key);
      outcome := if stored then Accepted else Refused;
    }

    /** Checks each chunk that was read back, in order, and the whole. */
    method VerifyBackupStoreContents(hash: Hash, found: Readings) returns (ok: bool)
      requires DescriptorOk(descriptor)
      ensures ok <==> ReadsVerify(hash, descriptor, found)
      ensures ok ==> IsArchive(hash, descriptor, Bodies(found, |descriptor.chunks|))
    {
      hide IsArchive, DescriptorOk, InventoryComplete, Bodies, Concat, SizeOf;
      var n := |descriptor.chunks|;
      if !InventoryComplete(found.listed, descriptor) {
        return false;
      }
      var archive: Bytes := [];
      NoBodies(found);
      for i := 0 to n
        invariant archive == Concat(Bodies(found, i))
        invariant forall k :: 0 <= k < i ==> ChunkReads(hash, descriptor, found, k)
      {
        if !ChunkReads(hash, descriptor, found, i) {
          return false;
        }
        OneMoreBody(found, i);
        archive := archive + found.stored(i).value;
      }
      ReadsAddUp(hash, descriptor, found);
      ok := |archive| == descriptor.sizeBytes && hash(archive) == descriptor.sha256;
    }

    /** The end of a completion whose reads were made at earlier times. It closes the set
        exactly when it verified and the set still takes uploads. When it did not verify, it
        marks the set failed only if the set still takes uploads, and then deletes the objects
        of the rows, as far as the store lets it, whatever the set has become. */
    method CompleteBackupSet(hash: Hash, seen: Counters, found: Readings, deletable: string -> bool, ghost id: CallId)
      returns (ok: bool)
      requires Valid(hash) && seen in past
      requires seen == Full(descriptor) ==>
                 id in checks && checks[id] == if ReadsVerify(hash, descriptor, found)
                                               then Verified(Bodies(found, |descriptor.chunks|)) else Failing
      modifies this
      ensures Valid(hash) && Reaches(hash, descriptor, old(State()), State())
      ensures ok <==> old(status) == Uploading && seen == Full(descriptor) && ReadsVerify(hash, descriptor, found)
      ensures status == if old(status) != Uploading || seen != Full(descriptor) then old(status)
                        else if ok then Complete else SetFailed
      ensures ok ==> uploaded == Full(descriptor) && IsArchive(hash, descriptor, Bodies(found, |descriptor.chunks|))
      ensures inventory == old(inventory) && uploaded == old(uploaded)
      ensures objects == if seen == Full(descriptor) && !ReadsVerify(hash, descriptor, found)
                         then old(objects) - (set k | k in KeysOf(inventory) && deletable(k)) else old(objects)
    {
      hide Inv, Reaches, Run, ReadsVerify, IsArchive;
      ghost var s0 := State();
      ReachesItself(hash, descriptor, s0);
      DescriptorIsOk(hash, descriptor, s0);
      if seen.chunks != |descriptor.chunks| || seen.bytes != descriptor.sizeBytes {
        return false;
      }
      var verified := VerifyBackupStoreContents(hash, found);
      if verified {
        ghost var s1 := Effect(hash, descriptor, s0, Close(id));
        ReachesOn(hash, descriptor, s0, s0, Close(id));
        ok := status == Uploading;
        FullCounters(hash, descriptor, s0, seen);
        status := if ok then Complete else status;
        Become(s1);
        return;
      }
      ghost var s1 := Effect(hash, descriptor, s0, MarkFailed(id));
      ReachesOn(hash, descriptor, s0, s0, MarkFailed(id));
      ghost var s2 := Effect(hash, descriptor, s1, LoadKeys(id));
      ReachesOn(hash, descriptor, s0, s1, LoadKeys(id));
      status := if status == Uploading then SetFailed else status;
      Become(s2);
      DeleteBackupObjects(hash, deletable, id, s0);
      ok := false;
    }

    /** Deletes the objects of the rows, one by one, as far as the store lets it. */
    method DeleteBackupObjects(hash: Hash, deletable: string -> bool, ghost id: CallId, ghost s0: State)
      requires Valid(hash) && Reaches(hash, descriptor, s0, State())
      requires id in checks && checks[id].Deleting? && checks[id].keys == KeysOf(inventory)
      modifies this
      ensures Valid(hash) && Reaches(hash, descriptor, s0, State())
      ensures objects == old(objects) - (set k | k in KeysOf(inventory) && deletable(k))
      ensures inventory == old(inventory) && uploaded == old(uploaded) && status == old(status)
    {
      hide Inv, Reaches, Run;
      var keys := set i | i in inventory :: inventory[i].key;
      assert keys == KeysOf(inventory);
      var rest := keys;
      ghost var gone: set<string> := {};
      while rest != {}
        invariant rest <= keys && keys == KeysOf(inventory)
        invariant Valid(hash) && Reaches(hash, descriptor, s0, State())
        invariant id in checks && checks[id].Deleting? && checks[id].keys == keys
        invariant objects == old(objects) - gone
        invariant forall k :: k in gone <==> k in keys && k !in rest && deletable(k)
        invariant inventory == old(inventory) && uploaded == old(uploaded) && status == old(status)
        decreases rest
      {
        var key :| key in rest;
        rest := rest - {key};
        if deletable(key) {
          ghost var s := State();
          ReachesOn(hash, descriptor, s0, s, DeleteObject(id, key));
          objects := objects - {key};
          gone := gone + {key};
          Become(Effect(hash, descriptor, s, DeleteObject(id, key)));
        }
      }
      assert gone == set k | k in KeysOf(inventory) && deletable(k);
    }
  }

  lemma RowsAreUsed(hash: Hash, d: Descriptor, s: State, index: nat, row: Row)
    requires Inv(hash, d, s) && (index, row) in s.rows
    ensures row.key in s.used
  {
  }

  lemma FreshInsert(hash: Hash, d: Descriptor, s: State, seen: Counters)
    requires Inv(hash, d, s) && seen in s.past
    ensures seen.chunks !in s.inventory && s.status == Uploading ==> seen == s.uploaded
  {
    hide SizeOf, CountersOk;
    CountersOf(s.past, s.uploaded, d, seen);
  }

  lemma WithinTheArchive(hash: Hash, d: Descriptor, s: State, seen: Counters)
    requires Inv(hash, d, s) && seen in s.past && seen.chunks < |d.chunks|
    ensures seen.bytes + d.chunks[seen.chunks].sizeBytes <= d.sizeBytes
  {
    hide SizeOf;
    CountersOf(s.past, s.uploaded, d, seen);
    FirstIsWithin(d.chunks, seen.chunks);
  }

  lemma DescriptorIsOk(hash: Hash, d: Descriptor, s: State)
    requires Inv(hash, d, s)
    ensures DescriptorOk(d)
  {
  }

  lemma FullCounters(hash: Hash, d: Descriptor, s: State, seen: Counters)
    requires Inv(hash, d, s) && seen in s.past && seen == Full(d)
    ensures s.uploaded == Full(d)
  {
    CountersOf(s.past, s.uploaded, d, seen);
  }

  ghost predicate Injective(hash: Hash) {
    forall x, y :: hash(x) == hash(y) ==> x == y
  }

  /** Whatever later happens to the stored objects, chunks that still pass their check are
      those of the archive that was verified: a restore reads it back or not at all. */
  lemma {:induction false} ReadsBackTheArchive(hash: Hash, d: Descriptor, archive: seq<Bytes>, read: seq<Bytes>)
    requires Injective(hash) && IsArchive(hash, d, archive)
    requires |read| == |d.chunks| && forall i :: 0 <= i < |read| ==> hash(read[i]) == d.chunks[i].sha256
    ensures read == archive && hash(Concat(read)) == d.sha256
  {
    forall i | 0 <= i < |read| ensures read[i] == archive[i] {
      assert hash(read[i]) == hash(archive[i]);
    }
  }

  // ---- Retention

  datatype Completed = Completed(
    id: string, sizeBytes: nat, expiresAt: int, generation: nat, watermark: nat, leaseExpiresAt: Option<int>)

  /** A set that a restore is using. */
  predicate Protected(row: Completed, now: int, active: Option<string>) {
    (row.leaseExpiresAt.Some? && row.leaseExpiresAt.value > now) || active == Some(row.id)
  }

  ghost predicate DistinctIds(rows: seq<Completed>) {
    forall i, k :: 0 <= i < k < |rows| ==> rows[i].id != rows[k].id
  }

  /** Newest snapshot first. */
  ghost predicate NewestFirst(rows: seq<Completed>) {
    forall i, k :: 0 <= i < k < |rows| ==>
      rows[i].generation > rows[k].generation
      || (rows[i].generation == rows[k].generation && rows[i].watermark >= rows[k].watermark)
  }

  /** How many of the rows are kept, and their bytes. */
  function KeptCount(rows: seq<Completed>, keep: set<string>): nat {
    if |rows| == 0 then 0 else KeptCount(rows[..|rows| - 1], keep) + (if rows[|rows| - 1].id in keep then 1 else 0)
  }

  function KeptBytes(rows: seq<Completed>, keep: set<string>): nat {
    if |rows| == 0 then 0
    else KeptBytes(rows[..|rows| - 1], keep) + (if rows[|rows| - 1].id in keep then rows[|rows| - 1].sizeBytes else 0)
  }

  /** Row i is kept exactly when a restore uses it, or it has not expired and fits with the
      newer rows that are kept. */
  ghost predicate KeptRightly(rows: seq<Completed>, keep: set<string>, i: nat, now: int, active: Option<string>,
                              keepCount: nat, keepBytes: nat)
    requires i < |rows|
  {
    rows[i].id in keep <==>
      || Protected(rows[i], now, active)
      || (rows[i].expiresAt > now && KeptCount(rows[..i], keep) < keepCount
          && KeptBytes(rows[..i], keep) + rows[i].sizeBytes <= keepBytes)
  }

  lemma {:induction false} LaterKeepsDoNotCount(rows: seq<Completed>, keep: set<string>, id: string)
    requires forall i :: 0 <= i < |rows| ==> rows[i].id != id
    ensures KeptCount(rows, keep + {id}) == KeptCount(rows, keep)
    ensures KeptBytes(rows, keep + {id}) == KeptBytes(rows, keep)
  {
    if |rows| > 0 {
      LaterKeepsDoNotCount(rows[..|rows| - 1], keep, id);
    }
  }

  ghost predicate KeptUpTo(rows: seq<Completed>, keep: set<string>, n: nat, now: int, active: Option<string>,
                           keepCount: nat, keepBytes: nat) {
    && n <= |rows|
    && (forall k :: 0 <= k < n ==> KeptRightly(rows, keep, k, now, active, keepCount, keepBytes))
    && (forall id :: id in keep ==> exists k :: 0 <= k < n && rows[k].id == id)
  }

  /** Keeping row i disturbs none of the rows before it. */
  lemma KeepOneMore(rows: seq<Completed>, keep: set<string>, i: nat, now: int, active: Option<string>,
                    keepCount: nat, keepBytes: nat, keep': set<string>)
    requires DistinctIds(rows) && i < |rows| && KeptUpTo(rows, keep, i, now, active, keepCount, keepBytes)
    requires var retained := Protected(rows[i], now, active)
                             || (rows[i].expiresAt > now && KeptCount(rows[..i], keep) < keepCount
                                 && KeptBytes(rows[..i], keep) + rows[i].sizeBytes <= keepBytes);
             keep' == if retained then keep + {rows[i].id} else keep
    ensures KeptUpTo(rows, keep', i + 1, now, active, keepCount, keepBytes)
    ensures KeptCount(rows[..i + 1], keep') == KeptCount(rows[..i], keep) + (if rows[i].id in keep' then 1 else 0)
    ensures KeptBytes(rows[..i + 1], keep') == KeptBytes(rows[..i], keep) + (if rows[i].id in keep' then rows[i].sizeBytes else 0)
    ensures rows[i].id !in keep
    ensures forall k :: 0 <= k < i ==> (rows[k].id in keep' <==> rows[k].id in keep)
  {
    hide KeptCount, KeptBytes, Protected;
    LaterKeepsDoNotCount(rows[..i], keep, rows[i].id);
    forall k | 0 <= k < i ensures KeptRightly(rows, keep', k, now, active, keepCount, keepBytes) {
      assert KeptRightly(rows, keep, k, now, active, keepCount, keepBytes);
      LaterKeepsDoNotCount(rows[..k], keep, rows[i].id);
    }
    KeptStep(rows, keep', i);
  }

  lemma KeptStep(rows: seq<Completed>, keep: set<string>, i: nat)
    requires i < |rows|
    ensures KeptCount(rows[..i + 1], keep) == KeptCount(rows[..i], keep) + (if rows[i].id in keep then 1 else 0)
    ensures KeptBytes(rows[..i + 1], keep) == KeptBytes(rows[..i], keep) + (if rows[i].id in keep then rows[i].sizeBytes else 0)
  {
    assert rows[..i + 1][..i] == rows[..i];
  }

  /** The snapshot that the cleanup may use: no kept set has a newer one. */
  ghost predicate IsLatest(rows: seq<Completed>, keep: set<string>, n: nat, latest: Option<Completed>)
    requires n <= |rows|
  {
    match latest
    case None => forall k :: 0 <= k < n ==> rows[k].id !in keep
    case Some(row) =>
      && row.id in keep && (exists k :: 0 <= k < n && rows[k] == row)
      && forall k :: 0 <= k < n && rows[k].id in keep ==>
           rows[k].generation < row.generation || (rows[k].generation == row.generation && rows[k].watermark <= row.watermark)
  }

  lemma LatestOneMore(rows: seq<Completed>, keep: set<string>, i: nat, latest: Option<Completed>, keep': set<string>)
    requires NewestFirst(rows) && i < |rows| && IsLatest(rows, keep, i, latest) && keep <= keep'
    requires forall k :: 0 <= k < i ==> (rows[k].id in keep' <==> rows[k].id in keep)
    ensures IsLatest(rows, keep', i + 1, if latest.None? && rows[i].id in keep' then Some(rows[i]) else latest)
  {
  }

  /** The retention pass over the completed sets. */
  method SelectRetained(rows: seq<Completed>, now: int, active: Option<string>, keepCount: nat, keepBytes: nat)
    returns (keep: set<string>, latest: Option<Completed>)
    requires DistinctIds(rows) && NewestFirst(rows)
    ensures KeptUpTo(rows, keep, |rows|, now, active, keepCount, keepBytes)
    ensures IsLatest(rows, keep, |rows|, latest)
    ensures forall i :: 0 <= i < |rows| && rows[i].leaseExpiresAt.Some? && rows[i].leaseExpiresAt.value > now ==> rows[i].id in keep
    ensures forall i :: 0 <= i < |rows| && active == Some(rows[i].id) ==> rows[i].id in keep
    ensures forall i :: 0 <= i < |rows| && (rows[i].leaseExpiresAt.None? || rows[i].leaseExpiresAt.value <= now)
                        && active != Some(rows[i].id) ==>
              (rows[i].id in keep <==>
                 && rows[i].expiresAt > now && KeptCount(rows[..i], keep) < keepCount
                 && KeptBytes(rows[..i], keep) + rows[i].sizeBytes <= keepBytes)
  {
    hide KeptRightly, DistinctIds, NewestFirst;
    keep := {};
    var count, retainedBytes := 0, 0;
    latest := None;
    for i := 0 to |rows|
      invariant count == KeptCount(rows[..i], keep) && retainedBytes == KeptBytes(rows[..i], keep)
      invariant KeptUpTo(rows, keep, i, now, active, keepCount, keepBytes)
      invariant IsLatest(rows, keep, i, latest)
    {
      var row := rows[i];
      ghost var before, latestBefore := keep, latest;
      if Protected(row, now, active) {
        keep := keep + {row.id};
        count, retainedBytes := count + 1, retainedBytes + row.sizeBytes;
      } else if row.expiresAt > now && count < keepCount && retainedBytes + row.sizeBytes <= keepBytes {
        keep := keep + {row.id};
        count, retainedBytes := count + 1, retainedBytes + row.sizeBytes;
      }
      if latest.None? && row.id in keep {
        latest := Some(row);
      }
      KeepOneMore(rows, before, i, now, active, keepCount, keepBytes, keep);
      LatestOneMore(rows, before, i, latestBefore, keep);
      hide KeptUpTo, IsLatest, KeptCount, KeptBytes;
    }
    assert rows[..|rows|] == rows;
    KeptMeans(rows, keep, now, active, keepCount, keepBytes);
  }

  /** A live lease or the recovery in progress keeps a set, expired or not; any other set is
      kept while it has not expired and fits. */
  lemma KeptMeans(rows: seq<Completed>, keep: set<string>, now: int, active: Option<string>, keepCount: nat, keepBytes: nat)
    requires KeptUpTo(rows, keep, |rows|, now, active, keepCount, keepBytes)
    ensures forall i :: 0 <= i < |rows| && rows[i].leaseExpiresAt.Some? && rows[i].leaseExpiresAt.value > now ==> rows[i].id in keep
    ensures forall i :: 0 <= i < |rows| && active == Some(rows[i].id) ==> rows[i].id in keep
    ensures forall i :: 0 <= i < |rows| && (rows[i].leaseExpiresAt.None? || rows[i].leaseExpiresAt.value <= now)
                        && active != Some(rows[i].id) ==>
              (rows[i].id in keep <==>
                 && rows[i].expiresAt > now && KeptCount(rows[..i], keep) < keepCount
                 && KeptBytes(rows[..i], keep) + rows[i].sizeBytes <= keepBytes)
  {
    hide KeptCount, KeptBytes;
    forall i | 0 <= i < |rows|
      ensures rows[i].id in keep <==>
        || (rows[i].leaseExpiresAt.Some? && rows[i].leaseExpiresAt.value > now)
        || active == Some(rows[i].id)
        || (rows[i].expiresAt > now && KeptCount(rows[..i], keep) < keepCount
            && KeptBytes(rows[..i], keep) + rows[i].sizeBytes <= keepBytes)
    {
      assert KeptRightly(rows, keep, i, now, active, keepCount, keepBytes);
    }
  }
}
