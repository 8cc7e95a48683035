/** The record database and the directory of body files its records name. */
module BlobStore {
  import opened Text
  import opened Headers
  import opened Freshness

  newtype Byte = b: int | 0 <= b < 256

  // A body file by the number in its name: still in the temporary directory, or
  // imported into the blob directory under the same name.
  datatype BodyPath = NoPath | Temp(id: nat) | Blob(id: nat)

  datatype StoredResponse = StoredResponse(status: int, header: Header, body: seq<Byte>, bodyPath: BodyPath,
                                           contentLength: int, cleanupPath: bool)

  datatype Entry = Entry(key: string, siteId: string, ruleId: string, policyTag: string, windows: Windows, baseAge: nat,
                         response: StoredResponse)

  datatype ChunkObject = ChunkObject(
    key: string, siteId: string, ruleId: string, policyTag: string, windows: Windows, baseAge: nat,
    header: Header, totalLength: int, chunkSize: int)

  datatype ChunkEntry = ChunkEntry(key: string, siteId: string, objectKey: string, index: nat, storedAt: int,
                                   invalidAt: int, bodyPath: BodyPath, size: int)

  datatype Record = EntryRecord(entry: Entry) | ObjectRecord(meta: ChunkObject) | ChunkRecord(chunk: ChunkEntry)
      | VaryRecord(names: seq<string>)

  type Files = map<BodyPath, seq<Byte>>

  // history holds every file that was ever on disk, names is the next unused file
  // name, ops numbers the database accesses, and expired says that some record has
  // ever been lost to its time to live.
  datatype StoreState = StoreState(records: map<string, Record>, files: Files, history: Files, names: nat, ops: nat,
                                   expired: bool)

  // The outside world: the records whose time to live runs out just before an
  // access, and the wall clock at an access.
  datatype World = World(lapse: nat -> set<string>, wall: nat -> int)

  predicate HasPrefix(key: string, prefix: string) {
    prefix <= key
  }

  // Names of a Vary field are written without a time to live.
  predicate IsNamesKey(key: string) {
    HasPrefix(key, "vary|") || HasPrefix(key, "rvary|")
  }

  function Lapsing(w: World, n: nat): (r: set<string>)
    ensures forall k :: k in r ==> !IsNamesKey(k)
  {
    set k | k in w.lapse(n) && !IsNamesKey(k)
  }

  function Lapse(w: World, st: StoreState): StoreState {
    var kept := st.records - Lapsing(w, st.ops);
    StoreState(kept, st.files, st.history, st.names, st.ops + 1, st.expired || kept != st.records)
  }

  function BodyOf(key: string, record: Record): BodyPath {
    if HasPrefix(key, "resp|") && record.EntryRecord? then record.entry.response.bodyPath
    else if HasPrefix(key, "rchunk|") && record.ChunkRecord? then record.chunk.bodyPath
    else NoPath
  }

  function BodyAt(st: StoreState, key: string): BodyPath {
    if key in st.records then BodyOf(key, st.records[key]) else NoPath
  }

  function RemoveBody(st: StoreState, path: BodyPath): StoreState {
    if path == NoPath then st else st.(files := st.files - {path})
  }

  function Lookup(st: StoreState, key: string): Option<Record> {
    if key in st.records then Some(st.records[key]) else None
  }

  // A record whose time is already over is deleted instead of written.
  function WriteUntil(w: World, st: StoreState, key: string, record: Record, invalidAt: int): StoreState {
    if invalidAt <= w.wall(st.ops) then st.(records := st.records - {key}, expired := true)
    else st.(records := st.records[key := record])
  }

  function PutWithBody(w: World, st: StoreState, key: string, record: Record, invalidAt: int,
                       path: BodyPath): StoreState {
    var st1 := Lapse(w, st);
    var st2 := WriteUntil(w, st1, key, record, invalidAt);
    var existing := BodyAt(st1, key);
    if existing != NoPath && existing != path then RemoveBody(st2, existing) else st2
  }

  function PutEntryState(w: World, st: StoreState, key: string, entry: Entry): StoreState {
    PutWithBody(w, st, key, EntryRecord(entry), entry.windows.invalidAt, entry.response.bodyPath)
  }

  function PutChunkState(w: World, st: StoreState, key: string, chunk: ChunkEntry): StoreState {
    PutWithBody(w, st, key, ChunkRecord(chunk), chunk.invalidAt, chunk.bodyPath)
  }

  function PutObjectState(w: World, st: StoreState, key: string, meta: ChunkObject): StoreState {
    WriteUntil(w, st, key, ObjectRecord(meta), meta.windows.invalidAt)
  }

  function PutVaryState(st: StoreState, key: string, names: seq<string>): StoreState {
    st.(records := st.records[key := VaryRecord(names)])
  }

  function DeleteState(w: World, st: StoreState, key: string): StoreState {
    if HasPrefix(key, "resp|") || HasPrefix(key, "rchunk|") then
      var st1 := Lapse(w, st);
      RemoveBody(st1.(records := st1.records - {key}), BodyAt(st1, key))
    else st.(records := st.records - {key})
  }

  function Matching(st: StoreState, prefix: string): set<string> {
    set k | k in st.records && HasPrefix(k, prefix)
  }

  function Bodies(st: StoreState, keys: set<string>): set<BodyPath> {
    set k | k in keys && BodyAt(st, k) != NoPath :: BodyAt(st, k)
  }

  function DeletePrefixState(w: World, st: StoreState, prefix: string): StoreState {
    var st1 := Lapse(w, st);
    var keys := Matching(st1, prefix);
    st1.(records := st1.records - keys, files := st1.files - Bodies(st1, keys))
  }

  function TouchAll(w: World, st: StoreState, chunks: seq<ChunkEntry>, invalidAt: int): StoreState
    decreases |chunks|
  {
    if chunks == [] then st
    else TouchAll(w, PutChunkState(w, st, chunks[0].key, chunks[0].(invalidAt := invalidAt)), chunks[1..], invalidAt)
  }

  // A lapse takes the records whose time is up, none of a Vary field, and nothing else.
  lemma LapseIs(w: World, st: StoreState, key: string)
    ensures var st' := Lapse(w, st);
            Lookup(st', key) == (if key in w.lapse(st.ops) && !("vary|" <= key) && !("rvary|" <= key) then None
                                 else Lookup(st, key)) &&
            st' == st.(records := st'.records, ops := st.ops + 1, expired := st'.expired) &&
            (st'.expired <==> st.expired || exists k :: k in st.records && k !in st'.records)
  {
    var st' := Lapse(w, st);
    if st'.records != st.records {
      assert st'.records.Keys != st.records.Keys;
    }
  }

  // A write before its time is over puts the record there and changes nothing else; one
  // after that takes away what was there, as an expiry would.
  lemma WriteIs(w: World, st: StoreState, key: string, record: Record, invalidAt: int, other: string)
    ensures var st', late := WriteUntil(w, st, key, record, invalidAt), w.wall(st.ops) >= invalidAt;
            Lookup(st', other) == (if other != key then Lookup(st, other) else if late then None else Some(record)) &&
            st' == st.(records := st'.records, expired := late || st.expired)
  {
  }

  // Entries and chunks are written after a lapse, until they become invalid, and the body
  // file of what they replace goes, unless it is theirs.
  ghost predicate PutWell(w: World, st: StoreState, key: string, record: Record, invalidAt: int, path: BodyPath,
                          st': StoreState) {
    var before := Lapse(w, st);
    st' == WriteUntil(w, before, key, record, invalidAt).(files := st'.files) &&
    (forall p :: p in st'.files <==> p in st.files && !(p == BodyAt(before, key) && p != NoPath && p != path)) &&
    forall p :: p in st'.files ==> st'.files[p] == st.files[p]
  }

  lemma PutIs(w: World, st: StoreState, key: string, entry: Entry, chunk: ChunkEntry)
    ensures PutWell(w, st, key, EntryRecord(entry), entry.windows.invalidAt, entry.response.bodyPath,
                    PutEntryState(w, st, key, entry))
    ensures PutWell(w, st, key, ChunkRecord(chunk), chunk.invalidAt, chunk.bodyPath, PutChunkState(w, st, key, chunk))
  {
    hide PutWell, PutWithBody;
    PutWithBodyIs(w, st, key, EntryRecord(entry), entry.windows.invalidAt, entry.response.bodyPath);
    PutWithBodyIs(w, st, key, ChunkRecord(chunk), chunk.invalidAt, chunk.bodyPath);
  }

  lemma PutWithBodyIs(w: World, st: StoreState, key: string, record: Record, invalidAt: int, path: BodyPath)
    ensures PutWell(w, st, key, record, invalidAt, path, PutWithBody(w, st, key, record, invalidAt, path))
  {
    hide BodyAt;
  }

  // Metadata is written until it becomes invalid, and names without end.
  lemma PutMetaIs(w: World, st: StoreState, key: string, meta: ChunkObject, names: seq<string>, other: string)
    ensures PutObjectState(w, st, key, meta) == WriteUntil(w, st, key, ObjectRecord(meta), meta.windows.invalidAt)
    ensures Lookup(PutVaryState(st, key, names), other) == if other == key then Some(VaryRecord(names))
                                                             else Lookup(st, other)
    ensures PutVaryState(st, key, names) == st.(records := PutVaryState(st, key, names).records)
  {
  }

  // The body a record names: entries and chunks have one, under their own kind of key.
  lemma BodyIs(st: StoreState, key: string)
    ensures match Lookup(st, key)
            case Some(EntryRecord(entry)) => "resp|" <= key ==> BodyAt(st, key) == entry.response.bodyPath
            case Some(ChunkRecord(chunk)) => "rchunk|" <= key ==> BodyAt(st, key) == chunk.bodyPath
            case _ => BodyAt(st, key) == NoPath
  {
    OneKind(key);
  }

  // A deletion takes the record and its body, and nothing else but what lapses.
  lemma DeleteIs(w: World, st: StoreState, key: string, other: string, file: BodyPath)
    ensures var st', bodied := DeleteState(w, st, key), "resp|" <= key || "rchunk|" <= key;
            var before := if bodied then Lapse(w, st) else st;
            Lookup(st', other) == (if other == key then None else Lookup(before, other)) &&
            st' == before.(records := st'.records, files := st'.files) &&
            (file in st'.files <==> file in st.files && (file == NoPath || file != BodyAt(before, key))) &&
            forall p :: p in st'.files ==> st'.files[p] == st.files[p]
  {
    OneKind(key);
  }

  lemma DeletePrefixIs(w: World, st: StoreState, prefix: string, other: string, file: BodyPath)
    ensures var st', before := DeletePrefixState(w, st, prefix), Lapse(w, st);
            Lookup(st', other) == (if prefix <= other then None else Lookup(before, other)) &&
            st' == before.(records := st'.records, files := st'.files) &&
            (file in st'.files <==>
               file in st.files &&
               !exists k :: k in before.records && prefix <= k && file == BodyAt(before, k) && file != NoPath) &&
            forall p :: p in st'.files ==> st'.files[p] == st.files[p]
  {
    var before := Lapse(w, st);
    var keys := Matching(before, prefix);
    assert forall k :: k in keys <==> k in before.records && prefix <= k;
    assert file in Bodies(before, keys) <==> exists k :: k in keys && file == BodyAt(before, k) && file != NoPath;
  }

  // A new file has the next name, which is never used again; importing it moves it and
  // its content under the blob of the same number.
  lemma FilesAre(st: StoreState, content: seq<Byte>, path: BodyPath, file: BodyPath)
    ensures var st' := CreateTempState(st, content);
            st' == st.(files := st.files[Temp(st.names) := content], history := st.history[Temp(st.names) := content],
                       names := st.names + 1)
    ensures path.Temp? && path in st.files ==>
              var st' := ImportState(st, path);
              (file in st'.files <==> file == Blob(path.id) || (file in st.files && file != path)) &&
              (file in st'.files ==> st'.files[file] == if file == Blob(path.id) then st.files[path]
                 else st.files[file]) &&
              st' == st.(files := st'.files, history := st.history[Blob(path.id) := st.files[path]])
    ensures var st' := RemoveBody(st, path);
            (file in st'.files <==> file in st.files && (path == NoPath || file != path)) &&
            (file in st'.files ==> st'.files[file] == st.files[file]) && st' == st.(files := st'.files)
  {
  }

  // The chunk records under a prefix, each once.
  ghost predicate ListsChunks(st: StoreState, prefix: string, chunks: seq<ChunkEntry>) {
    (forall i :: 0 <= i < |chunks| ==> chunks[i].key in st.records &&
                                       st.records[chunks[i].key] == ChunkRecord(chunks[i]) &&
                                       HasPrefix(chunks[i].key, prefix)) &&
    (forall i, j :: 0 <= i < j < |chunks| ==> chunks[i].key != chunks[j].key) &&
    (forall k :: k in Matching(st, prefix) ==> exists i :: 0 <= i < |chunks| && chunks[i].key == k)
  }

  function CreateTempState(st: StoreState, content: seq<Byte>): StoreState {
    st.(files := st.files[Temp(st.names) := content], history := st.history[Temp(st.names) := content],
        names := st.names + 1)
  }

  function ImportState(st: StoreState, path: BodyPath): StoreState
    requires path.Temp? && path in st.files
  {
    st.(files := (st.files - {path})[Blob(path.id) := st.files[path]],
        history := st.history[Blob(path.id) := st.files[path]])
  }

  function Referenced(st: StoreState): set<BodyPath> {
    set k | k in st.records :: BodyAt(st, k)
  }

  // Reopening removes every blob that no record names.
  function PruneState(st: StoreState): StoreState {
    st.(files := map p | p in st.files && (p.Blob? ==> p in Referenced(st)) :: st.files[p])
  }

  // Each kind of key holds its own kind of record, and a chunk records its own key.
  ghost predicate KindMatches(key: string, record: Record) {
    (HasPrefix(key, "resp|") ==> record.EntryRecord?) &&
    (HasPrefix(key, "rmeta|") ==> record.ObjectRecord?) &&
    (HasPrefix(key, "rchunk|") ==> record.ChunkRecord? && record.chunk.key == key) &&
    (HasPrefix(key, "vary|") || HasPrefix(key, "rvary|") ==> record.VaryRecord?)
  }

  ghost predicate Typed(st: StoreState) {
    forall k :: k in st.records ==> KindMatches(k, st.records[k])
  }

  lemma OneKind(key: string)
    ensures HasPrefix(key, "resp|") ==> !HasPrefix(key, "rmeta|") && !HasPrefix(key, "rchunk|") &&
                                        !HasPrefix(key, "vary|") && !HasPrefix(key, "rvary|")
    ensures HasPrefix(key, "rmeta|") ==> !HasPrefix(key, "rchunk|") && !HasPrefix(key, "vary|") &&
                                         !HasPrefix(key, "rvary|")
    ensures HasPrefix(key, "rchunk|") ==> !HasPrefix(key, "vary|") && !HasPrefix(key, "rvary|")
    ensures HasPrefix(key, "vary|") ==> !HasPrefix(key, "rvary|")
  {
    assert HasPrefix(key, "resp|") ==> key[0] == 'r' && key[1] == 'e';
    assert HasPrefix(key, "rmeta|") ==> key[0] == 'r' && key[1] == 'm';
    assert HasPrefix(key, "rchunk|") ==> key[0] == 'r' && key[1] == 'c';
    assert HasPrefix(key, "rvary|") ==> key[0] == 'r' && key[1] == 'v';
    assert HasPrefix(key, "vary|") ==> key[0] == 'v';
  }

  // No record names a missing file, and no two records share one.
  ghost predicate NoDangling(st: StoreState) {
    (forall k :: k in st.records && BodyAt(st, k) != NoPath ==> BodyAt(st, k).Blob? && BodyAt(st, k) in st.files) &&
    (forall k, k' :: k in st.records && k' in st.records && k != k' && BodyAt(st, k) != NoPath ==>
       BodyAt(st, k) != BodyAt(st, k'))
  }

  // File names are never used twice, so that a name stands for one content forever.
  ghost predicate NamesFresh(st: StoreState) {
    (forall p :: p in st.history ==> p != NoPath && p.id < st.names) &&
    (forall p :: p in st.files ==>
       p in st.history && st.history[p] == st.files[p] && (p.Temp? ==> Blob(p.id) !in st.history))
  }

  ghost predicate Sound(st: StoreState) {
    Typed(st) && NoDangling(st) && NamesFresh(st)
  }

  // A body may be put under a key if it is on disk and no other key has it.
  ghost predicate MayPut(st: StoreState, key: string, path: BodyPath) {
    path == NoPath ||
    (path.Blob? && path in st.files && forall k :: k in st.records && k != key ==> BodyAt(st, k) != path)
  }

  lemma LapseSound(w: World, st: StoreState)
    requires Sound(st)
    ensures Sound(Lapse(w, st))
  {
    var st' := Lapse(w, st);
    assert forall k :: k in st'.records ==> k in st.records && BodyAt(st', k) == BodyAt(st, k);
  }

  lemma RemoveUnreferenced(st: StoreState, path: BodyPath)
    requires Sound(st) && forall k :: k in st.records ==> BodyAt(st, k) != path || path == NoPath
    ensures Sound(RemoveBody(st, path))
  {
    var st' := RemoveBody(st, path);
    assert forall k :: k in st'.records ==> BodyAt(st', k) == BodyAt(st, k);
  }

  lemma WriteSound(w: World, st: StoreState, key: string, record: Record, invalidAt: int)
    requires Sound(st) && MayPut(st, key, BodyOf(key, record)) && KindMatches(key, record)
    ensures var st' := WriteUntil(w, st, key, record, invalidAt);
            Sound(st') && st'.files == st.files &&
            forall k :: k in st'.records ==> BodyAt(st', k) == if k == key then BodyOf(key, record) else BodyAt(st, k)
  {
    var st' := WriteUntil(w, st, key, record, invalidAt);
    forall k | k in st'.records
      ensures BodyAt(st', k) == if k == key then BodyOf(key, record) else BodyAt(st, k)
      ensures k != key ==> k in st.records && st'.records[k] == st.records[k]
    {
    }
  }

  lemma PutWithBodySound(w: World, st: StoreState, key: string, record: Record, invalidAt: int, path: BodyPath)
    requires Sound(st) && MayPut(st, key, path) && BodyOf(key, record) == path
    requires KindMatches(key, record)
    ensures Sound(PutWithBody(w, st, key, record, invalidAt, path))
  {
    LapseSound(w, st);
    var st1 := Lapse(w, st);
    assert forall k :: k in st1.records ==> BodyAt(st1, k) == BodyAt(st, k);
    WriteSound(w, st1, key, record, invalidAt);
    var st2, existing := WriteUntil(w, st1, key, record, invalidAt), BodyAt(st1, key);
    if existing != NoPath && existing != path {
      RemoveUnreferenced(st2, existing);
    }
  }

  lemma PutEntrySound(w: World, st: StoreState, key: string, entry: Entry)
    requires Sound(st) && HasPrefix(key, "resp|") && MayPut(st, key, entry.response.bodyPath)
    ensures Sound(PutEntryState(w, st, key, entry))
  {
    OneKind(key);
    PutWithBodySound(w, st, key, EntryRecord(entry), entry.windows.invalidAt, entry.response.bodyPath);
  }

  lemma PutChunkSound(w: World, st: StoreState, key: string, chunk: ChunkEntry)
    requires Sound(st) && HasPrefix(key, "rchunk|") && chunk.key == key && MayPut(st, key, chunk.bodyPath)
    ensures Sound(PutChunkState(w, st, key, chunk))
  {
    OneKind(key);
    PutWithBodySound(w, st, key, ChunkRecord(chunk), chunk.invalidAt, chunk.bodyPath);
  }

  lemma PutObjectSound(w: World, st: StoreState, key: string, meta: ChunkObject)
    requires Sound(st) && HasPrefix(key, "rmeta|")
    ensures Sound(PutObjectState(w, st, key, meta))
  {
    OneKind(key);
    var st' := PutObjectState(w, st, key, meta);
    assert forall k :: k in st'.records && k != key ==> k in st.records && BodyAt(st', k) == BodyAt(st, k);
  }

  lemma PutVarySound(st: StoreState, key: string, names: seq<string>)
    requires Sound(st) && (HasPrefix(key, "vary|") || HasPrefix(key, "rvary|"))
    ensures Sound(PutVaryState(st, key, names))
  {
    OneKind(key);
    var st' := PutVaryState(st, key, names);
    assert forall k :: k in st'.records && k != key ==> k in st.records && BodyAt(st', k) == BodyAt(st, k);
  }

  lemma DropSound(st: StoreState, keys: set<string>)
    requires Sound(st)
    ensures var st' := st.(records := st.records - keys);
            Sound(st') && forall k :: k in st'.records ==>
              k !in keys && BodyAt(st', k) == BodyAt(st, k) && k in st.records
  {
    var st' := st.(records := st.records - keys);
    assert forall k :: k in st'.records ==> k in st.records && BodyAt(st', k) == BodyAt(st, k);
  }

  lemma NoOtherNames(st: StoreState, key: string)
    requires Sound(st) && key in st.records
    ensures forall k :: k in st.records && k != key ==> BodyAt(st, k) != BodyAt(st, key) || BodyAt(st, key) == NoPath
  {
  }

  lemma NothingThere(st: StoreState, key: string)
    requires key !in st.records
    ensures BodyAt(st, key) == NoPath
  {
  }

  lemma DeleteSound(w: World, st: StoreState, key: string)
    requires Sound(st)
    ensures Sound(DeleteState(w, st, key))
  {
    hide BodyAt, Lapse, RemoveBody, NamesFresh, Typed;
    LapseSound(w, st);
    DropSound(st, {key});
    var st1 := Lapse(w, st);
    DropSound(st1, {key});
    var path := BodyAt(st1, key);
    if key in st1.records {
      NoOtherNames(st1, key);
    } else {
      NothingThere(st1, key);
    }
    RemoveUnreferenced(st1.(records := st1.records - {key}), path);
  }

  lemma DeletePrefixSound(w: World, st: StoreState, prefix: string)
    requires Sound(st)
    ensures Sound(DeletePrefixState(w, st, prefix))
  {
    hide BodyAt, Lapse;
    LapseSound(w, st);
    var st1, st' := Lapse(w, st), DeletePrefixState(w, st, prefix);
    DropSound(st1, Matching(st1, prefix));
    BodyAtRecords(st1.(records := st'.records), st');
  }

  lemma BodyAtRecords(st: StoreState, st': StoreState)
    requires st'.records == st.records
    ensures forall k :: BodyAt(st', k) == BodyAt(st, k)
  {
  }

  // What an operation that writes or drops the given keys leaves alone.
  ghost predicate OnlyAt(st: StoreState, st': StoreState, keys: iset<string>) {
    st'.history == st.history && st'.names == st.names && (st.expired ==> st'.expired) &&
    (forall k :: k in st'.records && k !in keys ==> k in st.records && st'.records[k] == st.records[k]) &&
    (forall k :: k in st.records && k !in keys && IsNamesKey(k) ==> k in st'.records) &&
    (!st'.expired ==> forall k :: k in st.records && k !in keys ==> k in st'.records)
  }

  lemma PutShape(w: World, st: StoreState, key: string, record: Record, invalidAt: int, path: BodyPath)
    ensures var st' := PutWithBody(w, st, key, record, invalidAt, path);
            OnlyAt(st, st', iset{key}) && (key in st'.records ==> st'.records[key] == record) &&
            (!st'.expired ==> !st.expired && st'.records == st.records[key := record])
    ensures forall p :: p in st.files && p != BodyAt(st, key) ==>
              p in PutWithBody(w, st, key, record, invalidAt, path).files
  {
    hide BodyAt, BodyOf, HasPrefix;
    var st1 := Lapse(w, st);
    LapseShape(w, st);
    LapseBody(w, st, key);
  }

  lemma LapseShape(w: World, st: StoreState)
    ensures var st' := Lapse(w, st);
            OnlyAt(st, st', iset{}) && st'.files == st.files &&
            (!st'.expired ==> !st.expired && st'.records == st.records)
  {
  }

  lemma LapseBody(w: World, st: StoreState, key: string)
    ensures BodyAt(Lapse(w, st), key) == NoPath || BodyAt(Lapse(w, st), key) == BodyAt(st, key)
  {
  }

  lemma DeletePrefixShape(w: World, st: StoreState, prefix: string)
    ensures var st' := DeletePrefixState(w, st, prefix);
            OnlyAt(st, st', iset k | HasPrefix(k, prefix)) &&
            (forall k :: k in st'.records ==> !HasPrefix(k, prefix)) &&
            (!st'.expired ==> !st.expired)
  {
    var st1 := Lapse(w, st);
    assert !st1.expired ==> st1.records == st.records;
  }

  // The chunks a touch has still to rewrite: each may be put back under its own key.
  ghost predicate Remaining(st: StoreState, chunks: seq<ChunkEntry>) {
    (forall i :: 0 <= i < |chunks| ==> HasPrefix(chunks[i].key, "rchunk|") &&
                                       MayPut(st, chunks[i].key, chunks[i].bodyPath)) &&
    (forall i, j :: 0 <= i < j < |chunks| ==> chunks[i].key != chunks[j].key) &&
    (forall i, j :: 0 <= i < j < |chunks| && chunks[i].bodyPath != NoPath ==> chunks[i].bodyPath != chunks[j].bodyPath)
  }

  lemma RemainingStep(w: World, st: StoreState, chunks: seq<ChunkEntry>, invalidAt: int)
    requires Sound(st) && Remaining(st, chunks) && chunks != []
    ensures var next := PutChunkState(w, st, chunks[0].key, chunks[0].(invalidAt := invalidAt));
            Sound(next) && Remaining(next, chunks[1..])
  {
    hide Sound, PutWithBody;
    var chunk := chunks[0].(invalidAt := invalidAt);
    PutChunkSound(w, st, chunk.key, chunk);
    PutShape(w, st, chunk.key, ChunkRecord(chunk), invalidAt, chunk.bodyPath);
    OneKind(chunk.key);
    var next := PutChunkState(w, st, chunk.key, chunk);
    forall i | 1 <= i < |chunks|
      ensures MayPut(next, chunks[i].key, chunks[i].bodyPath)
    {
      assert chunks[0].key != chunks[i].key;
      forall k | k in next.records && k != chunks[i].key
        ensures BodyAt(next, k) != chunks[i].bodyPath || chunks[i].bodyPath == NoPath
      {
        assert k != chunk.key ==> BodyAt(next, k) == BodyAt(st, k);
      }
      assert chunk.key in st.records ==> BodyAt(st, chunk.key) != chunks[i].bodyPath || chunks[i].bodyPath == NoPath;
    }
  }

  lemma {:induction false} TouchAllSound(w: World, st: StoreState, chunks: seq<ChunkEntry>, invalidAt: int)
    requires Sound(st) && Remaining(st, chunks)
    ensures Sound(TouchAll(w, st, chunks, invalidAt))
    decreases |chunks|
  {
    if chunks != [] {
      RemainingStep(w, st, chunks, invalidAt);
      TouchAllSound(w, PutChunkState(w, st, chunks[0].key, chunks[0].(invalidAt := invalidAt)), chunks[1..], invalidAt);
    }
  }

  // What a touch leaves, if nothing expired meanwhile: the listed chunks with the new
  // time, and everything else as it was.
  lemma {:induction false} TouchAllWrites(w: World, st: StoreState, chunks: seq<ChunkEntry>, invalidAt: int)
    requires forall i, j :: 0 <= i < j < |chunks| ==> chunks[i].key != chunks[j].key
    ensures var st' := TouchAll(w, st, chunks, invalidAt);
            !st'.expired ==>
              !st.expired && (forall i :: 0 <= i < |chunks| ==>
                                Lookup(st', chunks[i].key) == Some(ChunkRecord(chunks[i].(invalidAt := invalidAt)))) &&
              forall k :: (forall i :: 0 <= i < |chunks| ==> chunks[i].key != k) ==> Lookup(st', k) == Lookup(st, k)
    decreases |chunks|
  {
    hide PutWithBody;
    if chunks != [] {
      var chunk, rest := chunks[0].(invalidAt := invalidAt), chunks[1..];
      PutShape(w, st, chunk.key, ChunkRecord(chunk), invalidAt, chunk.bodyPath);
      var next, st' := PutChunkState(w, st, chunk.key, chunk), TouchAll(w, st, chunks, invalidAt);
      TouchAllWrites(w, next, rest, invalidAt);
      assert forall i :: 0 <= i < |rest| ==> rest[i] == chunks[i + 1];
      if !st'.expired {
        assert Lookup(st', chunk.key) == Lookup(next, chunk.key);
        forall k | forall i :: 0 <= i < |chunks| ==> chunks[i].key != k
          ensures Lookup(st', k) == Lookup(st, k)
        {
          assert chunks[0].key != k;
        }
      }
    }
  }

  lemma ListedRemain(st: StoreState, prefix: string, chunks: seq<ChunkEntry>)
    requires Sound(st) && HasPrefix(prefix, "rchunk|") && ListsChunks(st, prefix, chunks)
    ensures Remaining(st, chunks)
  {
    forall i | 0 <= i < |chunks|
      ensures HasPrefix(chunks[i].key, "rchunk|") && BodyAt(st, chunks[i].key) == chunks[i].bodyPath
      ensures MayPut(st, chunks[i].key, chunks[i].bodyPath)
    {
      PrefixTransitive("rchunk|", prefix, chunks[i].key);
      OneKind(chunks[i].key);
    }
  }

  lemma TouchSound(w: World, st: StoreState, prefix: string, chunks: seq<ChunkEntry>, invalidAt: int)
    requires Sound(st) && HasPrefix(prefix, "rchunk|") && ListsChunks(st, prefix, chunks)
    ensures Sound(TouchAll(w, st, chunks, invalidAt))
  {
    ListedRemain(st, prefix, chunks);
    TouchAllSound(w, st, chunks, invalidAt);
  }

  lemma PrefixTransitive(a: string, b: string, c: string)
    requires HasPrefix(b, a) && HasPrefix(c, b)
    ensures HasPrefix(c, a)
  {
    assert c[..|a|] == b[..|a|];
  }

  lemma ImportSound(st: StoreState, path: BodyPath, key: string)
    requires Sound(st) && path.Temp? && path in st.files
    ensures Sound(ImportState(st, path))
    ensures MayPut(ImportState(st, path), key, Blob(path.id))
  {
    var st' := ImportState(st, path);
    assert forall k :: k in st'.records ==> BodyAt(st', k) == BodyAt(st, k);
  }

  lemma CreateTempSound(st: StoreState, content: seq<Byte>)
    requires Sound(st)
    ensures Sound(CreateTempState(st, content))
  {
    var st' := CreateTempState(st, content);
    assert forall k :: k in st'.records ==> BodyAt(st', k) == BodyAt(st, k);
  }

  // Reopening keeps the store sound and leaves exactly the bodies that records name.
  lemma PruneExact(st: StoreState)
    requires Sound(st)
    ensures Sound(PruneState(st))
    ensures forall p: BodyPath :: p.Blob? ==> (p in PruneState(st).files <==>
                                                 exists k :: k in st.records && BodyAt(st, k) == p)
  {
    var st' := PruneState(st);
    assert forall k :: k in st'.records ==> BodyAt(st', k) == BodyAt(st, k);
  }

  datatype StoreOp =
    | CreateTempOp(content: seq<Byte>)
    | ImportOp(path: BodyPath)
    | PutEntryOp(key: string, entry: Entry)
    | PutChunkOp(key: string, chunk: ChunkEntry)
    | PutObjectOp(key: string, meta: ChunkObject)
    | PutVaryOp(key: string, names: seq<string>)
    | TouchOp(prefix: string, chunks: seq<ChunkEntry>, invalidAt: int)
    | DeleteOp(key: string)
    | DeletePrefixOp(prefix: string)
    | LapseOp
    | ReopenOp

  ghost predicate Permitted(w: World, st: StoreState, op: StoreOp) {
    match op
    case ImportOp(path) => path.Temp? && path in st.files
    case PutEntryOp(key, entry) => HasPrefix(key, "resp|") && MayPut(st, key, entry.response.bodyPath)
    case PutChunkOp(key, chunk) => HasPrefix(key, "rchunk|") && chunk.key == key && MayPut(st, key, chunk.bodyPath)
    case PutObjectOp(key, _) => HasPrefix(key, "rmeta|")
    case PutVaryOp(key, _) => HasPrefix(key, "vary|") || HasPrefix(key, "rvary|")
    case TouchOp(prefix, chunks, _) => HasPrefix(prefix, "rchunk|") && ListsChunks(Lapse(w, st), prefix, chunks)
    case _ => true
  }

  ghost function Apply(w: World, st: StoreState, op: StoreOp): StoreState
    requires Permitted(w, st, op)
  {
    match op
    case CreateTempOp(content) => CreateTempState(st, content)
    case ImportOp(path) => ImportState(st, path)
    case PutEntryOp(key, entry) => PutEntryState(w, st, key, entry)
    case PutChunkOp(key, chunk) => PutChunkState(w, st, key, chunk)
    case PutObjectOp(key, meta) => PutObjectState(w, st, key, meta)
    case PutVaryOp(key, names) => PutVaryState(st, key, names)
    case TouchOp(_, chunks, invalidAt) => TouchAll(w, Lapse(w, st), chunks, invalidAt)
    case DeleteOp(key) => DeleteState(w, st, key)
    case DeletePrefixOp(prefix) => DeletePrefixState(w, st, prefix)
    case LapseOp => Lapse(w, st)
    case ReopenOp => PruneState(st)
  }

  ghost predicate IsRun(w: World, states: seq<StoreState>, ops: seq<StoreOp>) {
    |states| == |ops| + 1 &&
    forall i :: 0 <= i < |ops| ==> Permitted(w, states[i], ops[i]) && states[i + 1] == Apply(w, states[i], ops[i])
  }

  lemma ApplySound(w: World, st: StoreState, op: StoreOp)
    requires Sound(st) && Permitted(w, st, op)
    ensures Sound(Apply(w, st, op))
  {
    LapseSound(w, st);
    match op
    case CreateTempOp(content) => CreateTempSound(st, content);
    case ImportOp(path) => ImportSound(st, path, "");
    case PutEntryOp(key, entry) => PutEntrySound(w, st, key, entry);
    case PutChunkOp(key, chunk) => PutChunkSound(w, st, key, chunk);
    case PutObjectOp(key, meta) => PutObjectSound(w, st, key, meta);
    case PutVaryOp(key, names) => PutVarySound(st, key, names);
    case TouchOp(prefix, chunks, invalidAt) => TouchSound(w, Lapse(w, st), prefix, chunks, invalidAt);
    case DeleteOp(key) => DeleteSound(w, st, key);
    case DeletePrefixOp(prefix) => DeletePrefixSound(w, st, prefix);
    case LapseOp =>
    case ReopenOp => PruneExact(st);
  }

  // Over any run of store operations, expiry and reopening included, no record ever
  // names a missing file and no two records share one.
  lemma {:induction false} RunSound(w: World, states: seq<StoreState>, ops: seq<StoreOp>, n: nat)
    requires IsRun(w, states, ops) && Sound(states[0]) && n < |states|
    ensures Sound(states[n])
  {
    if n > 0 {
      RunSound(w, states, ops, n - 1);
      ApplySound(w, states[n - 1], ops[n - 1]);
    }
  }

  function EntryAt(st: StoreState, key: string): Option<Entry> {
    match Lookup(st, key)
    case Some(EntryRecord(entry)) => Some(entry)
    case _ => None
  }

  function ObjectAt(st: StoreState, key: string): Option<ChunkObject> {
    match Lookup(st, key)
    case Some(ObjectRecord(meta)) => Some(meta)
    case _ => None
  }

  function ChunkAt(st: StoreState, key: string): Option<ChunkEntry> {
    match Lookup(st, key)
    case Some(ChunkRecord(chunk)) => Some(chunk)
    case _ => None
  }

  function VaryAt(st: StoreState, key: string): Option<seq<string>> {
    match Lookup(st, key)
    case Some(VaryRecord(names)) => Some(names)
    case _ => None
  }

  /** The Badger-backed store. A record of another kind than the one asked for reads
      as absent; on a sound store that never happens. */
  class BadgerStore {
    const world: World
    var records: map<string, Record>
    var files: Files
    ghost var history: Files
    var names: nat
    var ops: nat
    ghost var expired: bool

    constructor (world: World)
      ensures this.world == world && State() == StoreState(map[], map[], map[], 0, 0, false)
    {
      this.world := world;
      records, files, history, names, ops, expired := map[], map[], map[], 0, 0, false;
    }

    ghost function State(): StoreState
      reads this
    {
      StoreState(records, files, history, names, ops, expired)
    }

    method Expire()
      modifies this
      ensures State() == Lapse(world, old(State()))
    {
      var kept := records - Lapsing(world, ops);
      expired := expired || kept != records;
      records := kept;
      ops := ops + 1;
    }

    method GetEntry(key: string) returns (r: Option<Entry>)
      modifies this
      ensures State() == Lapse(world, old(State())) && r == EntryAt(State(), key)
    {
      Expire();
      r := if key in records && records[key].EntryRecord? then Some(records[key].entry) else None;
    }

    method GetChunkObject(key: string) returns (r: Option<ChunkObject>)
      modifies this
      ensures State() == Lapse(world, old(State())) && r == ObjectAt(State(), key)
    {
      Expire();
      r := if key in records && records[key].ObjectRecord? then Some(records[key].meta) else None;
    }

    method GetChunk(key: string) returns (r: Option<ChunkEntry>)
      modifies this
      ensures State() == Lapse(world, old(State())) && r == ChunkAt(State(), key)
    {
      Expire();
      r := if key in records && records[key].ChunkRecord? then Some(records[key].chunk) else None;
    }

    method GetVary(key: string) returns (r: Option<seq<string>>)
      modifies this
      ensures State() == Lapse(world, old(State())) && r == VaryAt(State(), key)
    {
      Expire();
      r := if key in records && records[key].VaryRecord? then Some(records[key].names) else None;
    }

    method Write(key: string, record: Record, invalidAt: int)
      modifies this
      ensures State() == WriteUntil(world, old(State()), key, record, invalidAt)
    {
      if invalidAt <= world.wall(ops) {
        records := records - {key};
        expired := true;
      } else {
        records := records[key := record];
      }
    }

    method RemoveBodyPath(path: BodyPath)
      modifies this
      ensures State() == RemoveBody(old(State()), path)
    {
      if path == NoPath {
        return;
      }
      files := files - {path};
    }

    method PutEntry(key: string, entry: Entry)
      requires HasPrefix(key, "resp|")
      modifies this
      ensures State() == PutEntryState(world, old(State()), key, entry)
    {
      var existing := GetEntry(key);
      OneKind(key);
      Write(key, EntryRecord(entry), entry.windows.invalidAt);
      if existing.Some? && existing.value.response.bodyPath != NoPath &&
      existing.value.response.bodyPath != entry.response.bodyPath {
        RemoveBodyPath(existing.value.response.bodyPath);
      }
    }

    method PutChunk(key: string, chunk: ChunkEntry)
      requires HasPrefix(key, "rchunk|")
      modifies this
      ensures State() == PutChunkState(world, old(State()), key, chunk)
    {
      var existing := GetChunk(key);
      OneKind(key);
      Write(key, ChunkRecord(chunk), chunk.invalidAt);
      if existing.Some? && existing.value.bodyPath != NoPath && existing.value.bodyPath != chunk.bodyPath {
        RemoveBodyPath(existing.value.bodyPath);
      }
    }

    method PutChunkObject(key: string, meta: ChunkObject)
      modifies this
      ensures State() == PutObjectState(world, old(State()), key, meta)
    {
      Write(key, ObjectRecord(meta), meta.windows.invalidAt);
    }

    method PutVary(key: string, names: seq<string>)
      modifies this
      ensures State() == PutVaryState(old(State()), key, names)
    {
      records := records[key := VaryRecord(names)];
    }

    method CreateTemp(content: seq<Byte>) returns (path: BodyPath)
      modifies this
      ensures State() == CreateTempState(old(State()), content) && path == Temp(old(names))
    {
      path := Temp(names);
      files := files[path := content];
      history := history[path := content];
      names := names + 1;
    }

    method ImportBody(path: BodyPath) returns (final: BodyPath)
      requires path.Temp? && path in files
      modifies this
      ensures State() == ImportState(old(State()), path) && final == Blob(path.id)
    {
      final := Blob(path.id);
      history := history[final := files[path]];
      files := (files - {path})[final := files[path]];
    }

    method Delete(key: string)
      modifies this
      ensures State() == DeleteState(world, old(State()), key)
    {
      OneKind(key);
      if "resp|" <= key {
        var entry := GetEntry(key);
        records := records - {key};
        RemoveBodyPath(if entry.Some? then entry.value.response.bodyPath else NoPath);
      } else if "rchunk|" <= key {
        var chunk := GetChunk(key);
        records := records - {key};
        RemoveBodyPath(if chunk.Some? then chunk.value.bodyPath else NoPath);
      } else {
        records := records - {key};
      }
    }

    // One pass of the iterator: the matching keys and the bodies they name.
    method CollectKeys(prefix: string) returns (keys: set<string>, blobPaths: set<BodyPath>)
      ensures keys == Matching(State(), prefix) && blobPaths == Bodies(State(), keys)
    {
      keys, blobPaths := {}, {};
      var pending := records.Keys;
      while pending != {}
        invariant pending <= records.Keys
        invariant forall k :: k in keys <==> k in Matching(State(), prefix) && k !in pending
        invariant blobPaths == Bodies(State(), keys)
        decreases |pending|
      {
        var key :| key in pending;
        pending := pending - {key};
        if prefix <= key {
          keys := keys + {key};
          if BodyOf(key, records[key]) != NoPath {
            blobPaths := blobPaths + {BodyOf(key, records[key])};
          }
        }
      }
    }

    method RemoveBodies(paths: set<BodyPath>)
      requires NoPath !in paths
      modifies this
      ensures State() == old(State()).(files := old(files) - paths)
    {
      var pending := paths;
      while pending != {}
        invariant pending <= paths
        invariant State() == old(State()).(files := old(files) - (paths - pending))
        decreases |pending|
      {
        var path :| path in pending;
        pending := pending - {path};
        RemoveBodyPath(path);
        assert old(files) - (paths - pending) == old(files) - (paths - (pending + {path})) - {path};
      }
    }

    method DeletePrefix(prefix: string) returns (count: nat)
      modifies this
      ensures State() == DeletePrefixState(world, old(State()), prefix)
      ensures count == |Matching(Lapse(world, old(State())), prefix)|
    {
      Expire();
      var keys, blobPaths := CollectKeys(prefix);
      records := records - keys;
      RemoveBodies(blobPaths);
      count := |keys|;
    }

    method CollectChunks(prefix: string) returns (chunks: seq<ChunkEntry>)
      requires Typed(State()) && HasPrefix(prefix, "rchunk|")
      ensures ListsChunks(State(), prefix, chunks)
    {
      chunks := [];
      var pending := records.Keys;
      while pending != {}
        invariant pending <= records.Keys
        invariant forall i :: 0 <= i < |chunks| ==>
                    chunks[i].key in records && chunks[i].key !in pending && HasPrefix(chunks[i].key, prefix) &&
                    records[chunks[i].key] == ChunkRecord(chunks[i])
        invariant forall i, j :: 0 <= i < j < |chunks| ==> chunks[i].key != chunks[j].key
        invariant forall k :: k in Matching(State(), prefix) && k !in pending ==>
                    exists i :: 0 <= i < |chunks| && chunks[i].key == k
        decreases |pending|
      {
        var key :| key in pending;
        pending := pending - {key};
        if prefix <= key {
          PrefixTransitive("rchunk|", prefix, key);
          assert KindMatches(key, records[key]);
          ghost var before := chunks;
          chunks := chunks + [records[key].chunk];
          assert chunks[|before|].key == key;
          assert forall i :: 0 <= i < |before| ==> chunks[i] == before[i];
        }
      }
    }

    // The order is that of the database's iterator, which the caller cannot see.
    method TouchChunkPrefix(prefix: string, invalidAt: int) returns (ghost order: seq<ChunkEntry>)
      requires Sound(State()) && HasPrefix(prefix, "rchunk|")
      modifies this
      ensures ListsChunks(Lapse(world, old(State())), prefix, order)
      ensures State() == TouchAll(world, Lapse(world, old(State())), order, invalidAt)
    {
      LapseSound(world, State());
      Expire();
      ghost var st1 := State();
      var chunks := CollectChunks(prefix);
      ListedRemain(st1, prefix, chunks);
      order := chunks;
      while chunks != []
        invariant Sound(State()) && Remaining(State(), chunks)
        invariant TouchAll(world, State(), chunks, invalidAt) == TouchAll(world, st1, order, invalidAt)
        decreases |chunks|
      {
        RemainingStep(world, State(), chunks, invalidAt);
        PutChunk(chunks[0].key, chunks[0].(invalidAt := invalidAt));
        chunks := chunks[1..];
      }
    }

    method PruneOrphanBodies()
      modifies this
      ensures State() == PruneState(old(State()))
    {
      var referenced: set<BodyPath> := {};
      var pending := records.Keys;
      while pending != {}
        invariant pending <= records.Keys
        invariant referenced == (set k | k in records && k !in pending :: BodyAt(State(), k))
        decreases |pending|
      {
        var key :| key in pending;
        pending := pending - {key};
        referenced := referenced + {BodyOf(key, records[key])};
      }
      assert referenced == Referenced(State());
      files := map p | p in files && (p.Blob? ==> p in referenced) :: files[p];
    }
  }
}
