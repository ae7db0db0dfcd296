/** A backup set as a state machine: uploads, repairs, completions and retention that act on
    what they read at some earlier time, one statement or object operation after the other. */
module BackupProtocol {
  import opened Options
  import opened Text

  type Bytes = seq<Byte>
  type Hash = Bytes -> string
  type CallId = nat

  datatype Chunk = Chunk(sizeBytes: nat, sha256: string)

  /** The declared archive; the sizes of its chunks add up to its own. */
  datatype Descriptor = Descriptor(chunks: seq<Chunk>, sizeBytes: nat, sha256: string)

  datatype Row = Row(key: string, sizeBytes: nat, sha256: string)

  datatype SetStatus = Uploading | Complete | SetFailed | Expired

  /** The counters of the set's row. */
  datatype Counters = Counters(chunks: nat, bytes: nat)

  /** The size of the first k declared chunks. */
  function SizeOf(chunks: seq<Chunk>, k: nat): nat
    requires k <= |chunks|
  {
    if k == 0 then 0 else SizeOf(chunks, k - 1) + chunks[k - 1].sizeBytes
  }

  predicate DescriptorOk(d: Descriptor) {
    |d.chunks| > 0 && SizeOf(d.chunks, |d.chunks|) == d.sizeBytes
  }

  predicate RowMatches(row: Row, chunk: Chunk) {
    row.sizeBytes == chunk.sizeBytes && row.sha256 == chunk.sha256
  }

  function Concat(parts: seq<Bytes>): Bytes {
    if |parts| == 0 then [] else Concat(parts[..|parts| - 1]) + parts[|parts| - 1]
  }

  /** The parts are the first declared chunks. */
  ghost predicate AreParts(hash: Hash, d: Descriptor, parts: seq<Bytes>) {
    && |parts| <= |d.chunks|
    && forall i :: 0 <= i < |parts| ==> |parts[i]| == d.chunks[i].sizeBytes && hash(parts[i]) == d.chunks[i].sha256
  }

  /** The parts are the declared chunks, and together the declared archive. */
  ghost predicate IsArchive(hash: Hash, d: Descriptor, parts: seq<Bytes>) {
    |parts| == |d.chunks| && AreParts(hash, d, parts) && hash(Concat(parts)) == d.sha256
  }

  function Full(d: Descriptor): Counters {
    Counters(|d.chunks|, d.sizeBytes)
  }

  /** How far a completion has come: it reads a row, then its object, and so on; a check
      that fails marks the set failed, loads the keys of its rows and deletes the objects.
      `changed` says whether the mark, which is guarded by the status, changed the set. */
  datatype Check =
    | Reading(parts: seq<Bytes>, row: Option<Row>)
    | Verified(parts: seq<Bytes>)
    | Failing
    | Marked(changed: bool)
    | Deleting(keys: set<string>, changed: bool)

  /** `puts` are objects that an upload has stored and not yet put on record; `doomed` are
      keys that an upload is about to delete. History: `filled` rows were ever inserted,
      `past` counters and `rows` were ever there, `used` keys were ever stored, and `lost`
      are keys whose statement went through although its caller was told otherwise. */
  datatype State = State(
    status: SetStatus,
    uploaded: Counters,
    inventory: map<nat, Row>,
    objects: map<string, Bytes>,
    puts: map<string, Bytes>,
    doomed: set<string>,
    checks: map<CallId, Check>,
    filled: nat,
    past: set<Counters>,
    rows: set<(nat, Row)>,
    used: set<string>,
    lost: set<string>)

  function Created(): State {
    var zero := Counters(0, 0);
    State(Uploading, zero, map[], map[], map[], {}, map[], 0, {zero}, {}, {}, {})
  }

  /** told: no caller is told that a statement failed which went through.
      guarded: objects are deleted only after a mark that changed the set. */
  datatype Care = Care(told: bool, guarded: bool)

  datatype Event =
    | Put(key: string, body: Bytes)
    | Insert(seen: Counters, key: string, heard: bool)
    | Repair(index: nat, seenRow: Row, key: string, heard: bool)
    | Drop(key: string)
    | StartCheck(id: CallId, seen: Counters)
    | ReadRow(id: CallId)
    | ReadObject(id: CallId, answer: Option<Bytes>)
    | FinishReading(id: CallId)
    | Close(id: CallId)
    | GiveUp(id: CallId)
    | MarkFailed(id: CallId)
    | LoadKeys(id: CallId)
    | DeleteObject(id: CallId, key: string)
    | Expire
    | Retire(key: string)

  /** What a row says is what the body is. */
  predicate Describes(hash: Hash, row: Row, body: Bytes) {
    row.sizeBytes == |body| && row.sha256 == hash(body)
  }

  function RowOf(hash: Hash, key: string, body: Bytes): Row {
    Row(key, |body|, hash(body))
  }

  predicate InventoryComplete(inventory: map<nat, Row>, d: Descriptor) {
    && (forall i :: i in inventory ==> i < |d.chunks|)
    && (forall i :: 0 <= i < |d.chunks| ==> i in inventory && RowMatches(inventory[i], d.chunks[i]))
  }

  predicate Retired(status: SetStatus) {
    status == SetFailed || status == Expired
  }

  ghost predicate Enabled(care: Care, hash: Hash, d: Descriptor, s: State, e: Event) {
    match e
    case Put(key, body) => key !in s.used && |body| > 0
    case Insert(seen, key, heard) =>
      && seen in s.past && key in s.puts && (care.told ==> heard)
      && seen.chunks < |d.chunks| && d.chunks[seen.chunks] == Chunk(|s.puts[key]|, hash(s.puts[key]))
    case Repair(index, seenRow, key, heard) =>
      (index, seenRow) in s.rows && key in s.puts && (care.told ==> heard) && Describes(hash, seenRow, s.puts[key])
    case Drop(key) => key in s.doomed
    case StartCheck(id, seen) => id !in s.checks && seen in s.past && seen == Full(d)
    case ReadRow(id) => id in s.checks && s.checks[id].Reading? && s.checks[id].row.None? && |s.checks[id].parts| < |d.chunks|
    case ReadObject(id, _) => id in s.checks && s.checks[id].Reading? && s.checks[id].row.Some?
    case FinishReading(id) =>
      id in s.checks && s.checks[id].Reading? && s.checks[id].row.None? && |s.checks[id].parts| == |d.chunks|
    case Close(id) => id in s.checks && s.checks[id].Verified?
    case GiveUp(id) => id !in s.checks && s.status != Complete
    case MarkFailed(id) => id in s.checks && s.checks[id].Failing?
    case LoadKeys(id) => id in s.checks && s.checks[id].Marked? && (care.guarded ==> s.checks[id].changed)
    case DeleteObject(id, key) => id in s.checks && s.checks[id].Deleting? && key in s.checks[id].keys
    case Expire => s.status == Complete
    case Retire(key) => Retired(s.status) && exists p :: p in s.rows && p.1.key == key
  }

  /** The statement of a new chunk: its row and the counters in one transaction, which a row
      that is there already aborts. The counters are guarded by the status. */
  function Inserted(hash: Hash, s: State, seen: Counters, key: string, heard: bool): State
    requires key in s.puts
  {
    var body := s.puts[key];
    var row := RowOf(hash, key, body);
    var rest := s.puts - {key};
    if seen.chunks in s.inventory then s.(puts := rest, doomed := s.doomed + {key})
    else
      var next := Counters(seen.chunks + 1, seen.bytes + |body|);
      s.(inventory := s.inventory[seen.chunks := row],
         uploaded := if s.status == Uploading then next else s.uploaded,
         past := if s.status == Uploading then s.past + {next} else s.past,
         filled := s.filled + 1, rows := s.rows + {(seen.chunks, row)}, puts := rest,
         doomed := if heard then s.doomed else s.doomed + {key},
         lost := if heard then s.lost else s.lost + {key})
  }

  /** The statement of a repair, guarded by the key that was read: the row has the new key,
      or the repair has lost its lease. */
  function RepairedState(hash: Hash, s: State, index: nat, seenRow: Row, key: string, heard: bool): State
    requires key in s.puts
  {
    var row := RowOf(hash, key, s.puts[key]);
    var rest := s.puts - {key};
    if index !in s.inventory || s.inventory[index].key != seenRow.key then s.(puts := rest, doomed := s.doomed + {key})
    else
      s.(inventory := s.inventory[index := row], rows := s.rows + {(index, row)}, puts := rest,
         doomed := s.doomed + (if heard then {seenRow.key} else {key}),
         lost := if heard then s.lost else s.lost + {key})
  }

  function KeysOf(inventory: map<nat, Row>): set<string> {
    set i | i in inventory :: inventory[i].key
  }

  function Effect(hash: Hash, d: Descriptor, s: State, e: Event): State {
    match e
    case Put(key, body) => s.(objects := s.objects[key := body], puts := s.puts[key := body], used := s.used + {key})
    case Insert(seen, key, heard) => if key !in s.puts then s else Inserted(hash, s, seen, key, heard)
    case Repair(index, seenRow, key, heard) =>
      if key !in s.puts then s else RepairedState(hash, s, index, seenRow, key, heard)
    case Drop(key) => s.(objects := s.objects - {key}, doomed := s.doomed - {key})
    case StartCheck(id, seen) =>
      s.(checks := s.checks[id := if InventoryComplete(s.inventory, d) then Reading([], None) else Failing])
    case ReadRow(id) => if id !in s.checks || !s.checks[id].Reading? then s else s.(checks := s.checks[id := RowRead(d, s, s.checks[id].parts)])
    case ReadObject(id, answer) =>
      if id !in s.checks || !s.checks[id].Reading? || s.checks[id].row.None? then s
      else s.(checks := s.checks[id := ObjectRead(hash, s.checks[id].parts, s.checks[id].row.value, answer)])
    case FinishReading(id) =>
      if id !in s.checks || !s.checks[id].Reading? then s
      else s.(checks := s.checks[id := AllRead(hash, d, s.checks[id].parts)])
    case Close(id) => s.(status := if s.status == Uploading then Complete else s.status, checks := s.checks - {id})
    case GiveUp(id) => s.(checks := s.checks[id := Failing])
    case MarkFailed(id) =>
      s.(status := if s.status == Uploading then SetFailed else s.status,
         checks := s.checks[id := Marked(s.status == Uploading)])
    case LoadKeys(id) =>
      if id !in s.checks || !s.checks[id].Marked? then s
      else s.(checks := s.checks[id := Deleting(KeysOf(s.inventory), s.checks[id].changed)])
    case DeleteObject(id, key) => s.(objects := s.objects - {key})
    case Expire => s.(status := Expired)
    case Retire(key) => s.(objects := s.objects - {key})
  }

  function RowRead(d: Descriptor, s: State, parts: seq<Bytes>): Check {
    var i := |parts|;
    if i < |d.chunks| && i in s.inventory && RowMatches(s.inventory[i], d.chunks[i]) then Reading(parts, Some(s.inventory[i]))
    else Failing
  }

  function ObjectRead(hash: Hash, parts: seq<Bytes>, row: Row, answer: Option<Bytes>): Check {
    if answer.Some? && Describes(hash, row, answer.value) then Reading(parts + [answer.value], None) else Failing
  }

  function AllRead(hash: Hash, d: Descriptor, parts: seq<Bytes>): Check {
    if |Concat(parts)| == d.sizeBytes && hash(Concat(parts)) == d.sha256 then Verified(parts) else Failing
  }

  ghost function Next(care: Care, hash: Hash, d: Descriptor, s: State, e: Event): State {
    if Enabled(care, hash, d, s, e) then Effect(hash, d, s, e) else s
  }

  ghost function Run(care: Care, hash: Hash, d: Descriptor, s: State, events: seq<Event>): State
    decreases |events|
  {
    if |events| == 0 then s
    else Next(care, hash, d, Run(care, hash, d, s, events[..|events| - 1]), events[|events| - 1])
  }

  ghost predicate Reachable(care: Care, hash: Hash, d: Descriptor, s: State) {
    exists events :: Run(care, hash, d, Created(), events) == s
  }

  // ---- What every step keeps

  /** No earlier counters were ahead, and all of them add up. */
  ghost predicate CountersOk(past: set<Counters>, now: Counters, d: Descriptor) {
    && now.chunks <= |d.chunks|
    && forall p :: p in past ==> p.chunks <= now.chunks && p.bytes == SizeOf(d.chunks, p.chunks)
  }

  /** Rows are as declared, under keys of their own. */
  ghost predicate RowsOk(s: State, d: Descriptor) {
    && (forall p :: p in s.rows ==> p.0 < |d.chunks| && RowMatches(p.1, d.chunks[p.0]) && p.1.key in s.used)
    && (forall p, q :: p in s.rows && q in s.rows && p.1.key == q.1.key ==> p == q)
    && (forall i :: i in s.inventory ==> (i, s.inventory[i]) in s.rows)
  }

  ghost predicate FilledOk(s: State, d: Descriptor) {
    && (forall i :: i in s.inventory <==> 0 <= i < s.filled)
    && s.uploaded.chunks <= s.filled <= |d.chunks|
    && (s.status == Uploading ==> s.filled == s.uploaded.chunks)
    && (s.status == Complete ==> s.uploaded.chunks == |d.chunks|)
  }

  ghost predicate PutsOk(s: State) {
    forall k :: k in s.puts ==>
      && k in s.used && k !in s.doomed && k in s.objects && s.objects[k] == s.puts[k] && |s.puts[k]| > 0
      && (forall p :: p in s.rows ==> p.1.key != k)
  }

  /** A key that an upload is about to delete is on record only if its reply was lost. */
  ghost predicate DoomedOk(s: State) {
    && s.doomed <= s.used
    && (forall i :: i in s.inventory && s.inventory[i].key in s.doomed ==> s.inventory[i].key in s.lost)
  }

  ghost predicate CheckOk(hash: Hash, d: Descriptor, s: State, c: Check) {
    match c
    case Reading(parts, row) =>
      && s.uploaded.chunks == |d.chunks| && AreParts(hash, d, parts)
      && (row.Some? ==> |parts| < |d.chunks| && RowMatches(row.value, d.chunks[|parts|]))
    case Verified(parts) => s.uploaded.chunks == |d.chunks| && IsArchive(hash, d, parts)
    case Failing => true
    case Marked(changed) => s.status != Uploading && (changed ==> Retired(s.status))
    case Deleting(keys, changed) =>
      && s.status != Uploading && (changed ==> Retired(s.status))
      && (forall k :: k in keys ==> exists p :: p in s.rows && p.1.key == k)
  }

  ghost predicate ChecksOk(hash: Hash, d: Descriptor, s: State) {
    forall id :: id in s.checks ==> CheckOk(hash, d, s, s.checks[id])
  }

  ghost predicate Inv(hash: Hash, d: Descriptor, s: State) {
    && DescriptorOk(d)
    && s.uploaded in s.past && CountersOk(s.past, s.uploaded, d)
    && RowsOk(s, d) && FilledOk(s, d) && PutsOk(s) && DoomedOk(s) && ChecksOk(hash, d, s)
    && (s.status == Complete ==> exists parts :: IsArchive(hash, d, parts))
  }

  lemma InvCreated(hash: Hash, d: Descriptor)
    requires DescriptorOk(d)
    ensures Inv(hash, d, Created())
  {
  }

  lemma CountersOf(past: set<Counters>, now: Counters, d: Descriptor, seen: Counters)
    requires CountersOk(past, now, d) && seen in past && now in past
    ensures seen.chunks <= now.chunks <= |d.chunks| && seen.bytes == SizeOf(d.chunks, seen.chunks)
    ensures now.bytes == SizeOf(d.chunks, now.chunks)
  {
  }

  lemma CountersGrow(past: set<Counters>, now: Counters, d: Descriptor)
    requires CountersOk(past, now, d) && now in past && now.chunks < |d.chunks|
    ensures var next := Counters(now.chunks + 1, now.bytes + d.chunks[now.chunks].sizeBytes);
            CountersOk(past + {next}, next, d)
  {
  }

  lemma {:induction false} FirstIsWithin(chunks: seq<Chunk>, k: nat)
    requires k < |chunks|
    ensures SizeOf(chunks, k) + chunks[k].sizeBytes <= SizeOf(chunks, |chunks|)
    decreases |chunks| - k
  {
    if k + 1 < |chunks| {
      FirstIsWithin(chunks, k + 1);
    }
  }

  /** The length of the parts is what was declared of them. */
  lemma {:induction false} PartsAddUp(hash: Hash, d: Descriptor, parts: seq<Bytes>)
    requires AreParts(hash, d, parts)
    ensures |Concat(parts)| == SizeOf(d.chunks, |parts|)
  {
    if |parts| > 0 {
      PartsAddUp(hash, d, parts[..|parts| - 1]);
    }
  }
}
