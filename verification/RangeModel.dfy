/** What the range cache keeps true of the store, for one URL whose origin body is
    fixed: every stored chunk holds the bytes of its chunk, and was fetched under
    the version its object records. */
module RangeModel {
  import opened Text
  import opened Headers
  import opened CacheKeys
  import opened Freshness
  import opened ByteRange
  import opened BlobStore

  // A URL: its base key, the origin's representation of it, and the chunk size.
  datatype Url = Url(base: string, body: seq<Byte>, chunkSize: int)

  // For which chunk, and under which version, a body file was fetched.
  datatype Fetch = Fetch(index: nat, validators: Validators)

  // What an object's windows were decided on: a partial reply to a request, at a clock
  // reading and the next; or a renewal of an earlier object, at five successive readings.
  datatype Dating =
    | FromReply(policy: Policy, call: nat, tick: nat)
    | FromRenewal(policy: Policy, call: nat, tick: nat, previous: ChunkObject)

  // Every body ever fetched, and every object ever built for a URL.
  datatype Fetches = Fetches(bodies: map<BodyPath, Fetch>, objects: map<(string, ChunkObject), Dating>)

  // Nothing known is forgotten.
  ghost predicate Learns(a: Fetches, b: Fetches) {
    Grows(a.bodies, b.bodies) && Grows(a.objects, b.objects)
  }

  predicate IsObjectKey(base: string, key: string) {
    key == ResponseKey(base) || HasPrefix(key, VariantPrefix(base))
  }

  predicate OwnsObject(base: string, key: string) {
    key == RangeObjectKey(ResponseKey(base)) || HasPrefix(key, "rmeta|" + VariantPrefix(base))
  }

  predicate OwnsChunk(base: string, key: string) {
    HasPrefix(key, RangeChunkPrefix(ResponseKey(base)))
  }

  // The keys the range cache may touch for a URL. Its metadata prefix has no
  // delimiter, so it also covers URLs that extend this one.
  predicate RangeOwned(base: string, key: string) {
    key == RangeVaryKey(base) || HasPrefix(key, RangeObjectKey(ResponseKey(base))) || OwnsChunk(base, key)
  }

  ghost predicate Holds(history: Files, path: BodyPath, content: seq<Byte>) {
    path in history && history[path] == content
  }

  ghost predicate ChunkOk(u: Url, history: Files, fetches: Fetches, key: string, chunk: ChunkEntry) {
    key == RangeChunkKey(chunk.objectKey, chunk.index) && IsObjectKey(u.base, chunk.objectKey) &&
    0 <= chunk.index * u.chunkSize < |u.body| && u.chunkSize > 0 &&
    Holds(history, chunk.bodyPath, Chunk(u.body, chunk.index, u.chunkSize)) &&
    chunk.bodyPath in fetches.bodies && fetches.bodies[chunk.bodyPath].index == chunk.index
  }

  ghost predicate ObjectOk(u: Url, key: string, meta: ChunkObject) {
    key == RangeObjectKey(meta.key) && meta.totalLength == |u.body| && meta.chunkSize == u.chunkSize
  }

  // A stored full response with a length carries the whole body.
  ghost predicate EntryOk(u: Url, history: Files, entry: Entry) {
    entry.response.contentLength > 0 ==>
      entry.response.contentLength == |u.body| &&
      if entry.response.body != [] then entry.response.body == u.body
      else Holds(history, entry.response.bodyPath, u.body)
  }

  ghost predicate RecordOk(u: Url, history: Files, fetches: Fetches, key: string, record: Record) {
    (OwnsChunk(u.base, key) && record.ChunkRecord? ==> ChunkOk(u, history, fetches, key, record.chunk)) &&
    (OwnsObject(u.base, key) && record.ObjectRecord? ==>
       ObjectOk(u, key, record.meta) && (u.base, record.meta) in fetches.objects) &&
    (IsObjectKey(u.base, key) && record.EntryRecord? ==> EntryOk(u, history, record.entry))
  }

  ghost predicate BytesHold(u: Url, st: StoreState, fetches: Fetches) {
    forall k :: k in st.records ==> RecordOk(u, st.history, fetches, k, st.records[k])
  }

  // The chunk's object is stored, under the version the chunk was fetched under.
  ghost predicate VersionOk(u: Url, st: StoreState, fetches: Fetches, chunk: ChunkEntry) {
    var meta := ObjectAt(st, RangeObjectKey(chunk.objectKey));
    meta.Some? && chunk.bodyPath in fetches.bodies &&
    fetches.bodies[chunk.bodyPath].validators == ValidatorsOf(meta.value.header)
  }

  ghost predicate VersionsHold(u: Url, st: StoreState, fetches: Fetches) {
    (VaryAt(st, RangeVaryKey(u.base)) != Some([])) &&
    forall k :: k in st.records && OwnsChunk(u.base, k) && st.records[k].ChunkRecord? ==>
      VersionOk(u, st, fetches, st.records[k].chunk)
  }

  ghost predicate Safe(u: Url, st: StoreState, fetches: Fetches) {
    u.chunkSize > 0 && 0 < |u.body| <= MAX_INT64 && Sound(st) && BytesHold(u, st, fetches)
  }

  // The invariant of the range cache. The version part survives until a record expires.
  ghost predicate Good(u: Url, st: StoreState, fetches: Fetches) {
    Safe(u, st, fetches) && (!st.expired ==> VersionsHold(u, st, fetches))
  }

  ghost predicate Grows<K(!new), V>(a: map<K, V>, b: map<K, V>) {
    forall k :: k in a ==> k in b && b[k] == a[k]
  }

  // What any number of range operations on a URL may do to the rest of the store.
  ghost predicate Evolves(base: string, st: StoreState, st': StoreState) {
    Grows(st.history, st'.history) && st.names <= st'.names && (st.expired ==> st'.expired) &&
    (forall k :: k in st'.records && !RangeOwned(base, k) ==> k in st.records && st'.records[k] == st.records[k]) &&
    (forall k :: k in st.records && !RangeOwned(base, k) && IsNamesKey(k) ==> k in st'.records) &&
    (!st'.expired ==> forall k :: k in st.records && !RangeOwned(base, k) ==> k in st'.records)
  }

  // A body file that no record names yet.
  ghost predicate Loose(st: StoreState, path: BodyPath) {
    path in st.files && path != NoPath && forall k :: k in st.records ==> BodyAt(st, k) != path
  }

  ghost predicate NoChunks(base: string, st: StoreState) {
    forall k :: k in st.records ==> !OwnsChunk(base, k)
  }

  // Every stored chunk of the object was fetched under the given version.
  ghost predicate ChunksOfVersion(u: Url, st: StoreState, fetches: Fetches, key: string, validators: Validators) {
    forall k :: k in st.records && OwnsChunk(u.base, k) && st.records[k].ChunkRecord? &&
                st.records[k].chunk.objectKey == key ==>
      st.records[k].chunk.bodyPath in fetches.bodies &&
      fetches.bodies[st.records[k].chunk.bodyPath].validators == validators
  }

  lemma EvolvesTransitive(base: string, a: StoreState, b: StoreState, c: StoreState)
    requires Evolves(base, a, b) && Evolves(base, b, c)
    ensures Evolves(base, a, c)
  {
  }

  lemma LooseFacts(st: StoreState, path: BodyPath)
    requires Loose(st, path)
    ensures path in st.files
    ensures path.Blob? ==> forall key :: MayPut(st, key, path)
  {
  }

  lemma EvolvesReflexive(base: string, st: StoreState)
    ensures Evolves(base, st, st)
  {
  }

  lemma EvolvesFacts(base: string, st: StoreState, st': StoreState)
    requires Evolves(base, st, st')
    ensures Grows(st.history, st'.history) && (!st'.expired ==> !st.expired)
  {
  }

  lemma Pow10Large()
    ensures Pow10(20) > MAX_INT64
  {
    assert Pow10(5) == 100_000;
    assert Pow10(10) == 10_000_000_000 by { assert Pow10(8) == 100_000_000; }
    assert Pow10(15) == 1_000_000_000_000_000 by { assert Pow10(13) == 10_000_000_000_000; }
    assert Pow10(20) == 100_000_000_000_000_000_000 by { assert Pow10(18) == 1_000_000_000_000_000_000; }
  }

  lemma ChunkKeyInjective(a: string, i: nat, b: string, j: nat)
    requires RangeChunkKey(a, i) == RangeChunkKey(b, j) && i <= MAX_INT64 && j <= MAX_INT64
    ensures a == b && i == j
  {
    Pow10Large();
    var k, k' := RangeChunkKey(a, i), RangeChunkKey(b, j);
    assert |k| == 8 + |a| + 20 && |k'| == 8 + |b| + 20;
    assert k[7..7 + |a|] == a && k'[7..7 + |b|] == b;
    assert k[8 + |a|..] == PadInt(i, 20) && k'[8 + |b|..] == PadInt(j, 20);
    PadIntInjective(i, j, 20);
  }

  lemma OwnedKeys(base: string, key: string, index: nat)
    requires IsObjectKey(base, key)
    ensures OwnsObject(base, RangeObjectKey(key)) && RangeOwned(base, RangeObjectKey(key))
    ensures OwnsChunk(base, RangeChunkKey(key, index)) && RangeOwned(base, RangeChunkKey(key, index))
    ensures HasPrefix(RangeObjectKey(key), "rmeta|") && HasPrefix(RangeChunkKey(key, index), "rchunk|")
    ensures HasPrefix(RangeChunkPrefix(key), "rchunk|") &&
            HasPrefix(RangeChunkPrefix(key), RangeChunkPrefix(ResponseKey(base)))
    ensures HasPrefix(RangeVaryKey(base), "rvary|")
  {
    var root := ResponseKey(base);
    if key != root {
      assert key[..|root|] == VariantPrefix(base)[..|root|] == root;
      assert VariantPrefix(base)[|root|] == '|';
      assert key[|root|] == '|';
      var p := RangeChunkPrefix(root);
      assert RangeChunkPrefix(key)[..|p|] == p;
      assert RangeChunkKey(key, index)[..|p|] == p;
      var q := "rmeta|" + VariantPrefix(base);
      assert RangeObjectKey(key)[..|q|] == q;
      assert RangeObjectKey(key)[..|RangeObjectKey(root)|] == RangeObjectKey(root);
    } else {
      assert RangeChunkKey(key, index)[..|RangeChunkPrefix(root)|] == RangeChunkPrefix(root);
    }
  }

  // Entries of the URL, and keys of other kinds, are never range-owned.
  lemma OtherKinds(base: string, key: string)
    ensures HasPrefix(key, "resp|") || HasPrefix(key, "vary|") ==> !RangeOwned(base, key)
    ensures OwnsChunk(base, key) ==> HasPrefix(key, "rchunk|")
    ensures OwnsObject(base, key) ==> HasPrefix(key, "rmeta|")
    ensures IsObjectKey(base, key) ==> HasPrefix(key, "resp|")
  {
    OneKind(key);
    var p, q, v := RangeChunkPrefix(ResponseKey(base)), RangeObjectKey(ResponseKey(base)),
        "rmeta|" + VariantPrefix(base);
    assert p[..7] == "rchunk|" && q[..6] == "rmeta|" && v[..6] == "rmeta|";
    assert HasPrefix(key, p) ==> key[..7] == p[..7];
    assert HasPrefix(key, q) ==> key[..6] == q[..6];
    assert HasPrefix(key, v) ==> key[..6] == v[..6];
    assert RangeVaryKey(base)[..6] == "rvary|";
    assert ResponseKey(base)[..5] == "resp|" && VariantPrefix(base)[..5] == "resp|";
    assert HasPrefix(key, VariantPrefix(base)) ==> key[..5] == VariantPrefix(base)[..5];
  }

  lemma RecordOkGrows(u: Url, history: Files, fetches: Fetches, history': Files, fetches': Fetches, key: string,
                      record: Record)
    requires RecordOk(u, history, fetches, key, record) && Grows(history, history') && Learns(fetches, fetches')
    ensures RecordOk(u, history', fetches', key, record)
  {
  }

  // Keeping or dropping records, and adding correct ones, keeps the bytes right.
  lemma BytesKept(u: Url, st: StoreState, fetches: Fetches, st': StoreState, fetches': Fetches)
    requires BytesHold(u, st, fetches) && Grows(st.history, st'.history) && Learns(fetches, fetches')
    requires forall k :: k in st'.records ==>
               (k in st.records && st'.records[k] == st.records[k]) ||
               RecordOk(u, st'.history, fetches', k, st'.records[k])
    ensures BytesHold(u, st', fetches')
  {
    forall k | k in st'.records
      ensures RecordOk(u, st'.history, fetches', k, st'.records[k])
    {
      if k in st.records && st'.records[k] == st.records[k] {
        RecordOkGrows(u, st.history, fetches, st'.history, fetches', k, st.records[k]);
      }
    }
  }

  lemma LapseGood(w: World, u: Url, st: StoreState, fetches: Fetches)
    requires Good(u, st, fetches)
    ensures var st' := Lapse(w, st);
            Good(u, st', fetches) && Evolves(u.base, st, st') && st'.files == st.files && st'.history == st.history &&
            (!st'.expired ==> st'.records == st.records && !st.expired)
  {
    hide Sound, RecordOk, VersionOk, RangeOwned, RangeVaryKey, OwnsChunk;
    LapseSound(w, st);
    var st' := Lapse(w, st);
    BytesKept(u, st, fetches, st', fetches);
    if !st'.expired { VersionsSame(u, st, st', fetches); }
  }

  lemma VersionsSame(u: Url, st: StoreState, st': StoreState, fetches: Fetches)
    requires st'.records == st.records && VersionsHold(u, st, fetches)
    ensures VersionsHold(u, st', fetches)
  {
    hide OwnsChunk, RangeVaryKey, RangeObjectKey;
    forall k | k in st'.records && OwnsChunk(u.base, k) && st'.records[k].ChunkRecord?
      ensures VersionOk(u, st', fetches, st'.records[k].chunk)
    {
      assert VersionOk(u, st, fetches, st.records[k].chunk);
    }
  }

  lemma GoodFacts(u: Url, st: StoreState, fetches: Fetches)
    requires Good(u, st, fetches)
    ensures Safe(u, st, fetches) && Sound(st) && Typed(st) && u.chunkSize > 0 && 0 < |u.body| <= MAX_INT64
    ensures forall p :: p in st.files ==> p in st.history && st.history[p] == st.files[p]
    ensures !st.expired ==> VersionsHold(u, st, fetches)
  {
  }

  lemma BodyNotEmpty(u: Url, st: StoreState, fetches: Fetches)
    requires Good(u, st, fetches)
    ensures 0 < |u.body|
  {
  }

  lemma ObjectFacts(u: Url, st: StoreState, fetches: Fetches, key: string)
    requires Good(u, st, fetches) && IsObjectKey(u.base, key) && ObjectAt(st, RangeObjectKey(key)).Some?
    ensures ObjectOk(u, RangeObjectKey(key), ObjectAt(st, RangeObjectKey(key)).value)
    ensures ObjectAt(st, RangeObjectKey(key)).value.key == key &&
            (u.base, ObjectAt(st, RangeObjectKey(key)).value) in fetches.objects
  {
    OwnedKeys(u.base, key, 0);
    assert RecordOk(u, st.history, fetches, RangeObjectKey(key), st.records[RangeObjectKey(key)]);
    ObjectKeyParts(key, ObjectAt(st, RangeObjectKey(key)).value.key);
  }

  lemma EntryFacts(u: Url, st: StoreState, fetches: Fetches, key: string)
    requires Good(u, st, fetches) && IsObjectKey(u.base, key) && EntryAt(st, key).Some?
    ensures var response := EntryAt(st, key).value.response;
            response.contentLength > 0 ==>
              response.contentLength == |u.body| &&
              if response.body != [] then response.body == u.body
              else Holds(st.history, response.bodyPath, u.body) && response.bodyPath in st.files
  {
    assert RecordOk(u, st.history, fetches, key, st.records[key]);
    OtherKinds(u.base, key);
    var response := EntryAt(st, key).value.response;
    assert BodyAt(st, key) == response.bodyPath;
  }

  // The URL's objects and Vary names are those of the earlier state.
  ghost predicate SameMeta(u: Url, st: StoreState, st': StoreState) {
    (forall k :: ObjectAt(st', RangeObjectKey(k)) == ObjectAt(st, RangeObjectKey(k))) &&
    VaryAt(st', RangeVaryKey(u.base)) == VaryAt(st, RangeVaryKey(u.base))
  }

  lemma SameMetaFacts(u: Url, st: StoreState, st': StoreState, key: string)
    ensures SameMeta(u, st, st') ==>
              ObjectAt(st', RangeObjectKey(key)) == ObjectAt(st, RangeObjectKey(key)) &&
              VaryAt(st', RangeVaryKey(u.base)) == VaryAt(st, RangeVaryKey(u.base))
  {
  }

  lemma SameMetaIf(u: Url, st: StoreState, st': StoreState)
    requires forall k :: HasPrefix(k, "rmeta|") || HasPrefix(k, "rvary|") ==> Lookup(st', k) == Lookup(st, k)
    ensures SameMeta(u, st, st')
  {
    forall k
      ensures HasPrefix(RangeObjectKey(k), "rmeta|")
    {
    }
    assert HasPrefix(RangeVaryKey(u.base), "rvary|");
  }

  // Changes to files alone.
  lemma RecordsSame(u: Url, st: StoreState, fetches: Fetches, st': StoreState, fetches': Fetches)
    requires Good(u, st, fetches) && Sound(st') && st'.records == st.records && st'.expired == st.expired
    requires Grows(st.history, st'.history) && st.names <= st'.names && Learns(fetches, fetches')
    ensures Good(u, st', fetches') && Evolves(u.base, st, st')
  {
    BytesKept(u, st, fetches, st', fetches');
    if !st.expired {
      SameMetaIf(u, st, st');
      forall k | k in st'.records && OwnsChunk(u.base, k) && st'.records[k].ChunkRecord?
        ensures VersionOk(u, st', fetches', st'.records[k].chunk)
      {
        assert VersionOk(u, st, fetches, st.records[k].chunk);
      }
    }
  }

  lemma CreateTempGood(u: Url, st: StoreState, fetches: Fetches, content: seq<Byte>, fetch: Fetch)
    requires Good(u, st, fetches) && forall p :: p in fetches.bodies ==> p in st.history
    ensures var st', fetches' := CreateTempState(st, content),
              fetches.(bodies := fetches.bodies[Temp(st.names) := fetch]);
            Good(u, st', fetches') && Evolves(u.base, st, st') && Learns(fetches, fetches') &&
            Grows(st.history, st'.history) &&
            Loose(st', Temp(st.names)) && Grows(st.files, st'.files)
  {
    CreateTempSound(st, content);
    assert Temp(st.names).id == st.names;
    assert forall k :: k in st.records ==> BodyAt(CreateTempState(st, content), k) == BodyAt(st, k);
    RecordsSame(u, st, fetches, CreateTempState(st, content),
                fetches.(bodies := fetches.bodies[Temp(st.names) := fetch]));
  }

  lemma ImportGood(u: Url, st: StoreState, fetches: Fetches, path: BodyPath)
    requires Good(u, st, fetches) && path.Temp? && path in st.files && path in fetches.bodies &&
             forall p :: p in fetches.bodies ==> p in st.history
    ensures var st', fetches' := ImportState(st, path),
              fetches.(bodies := fetches.bodies[Blob(path.id) := fetches.bodies[path]]);
            Good(u, st', fetches') && Evolves(u.base, st, st') && Learns(fetches, fetches') &&
            Grows(st.history, st'.history) &&
            Holds(st'.history, Blob(path.id), st.history[path]) && Loose(st', Blob(path.id)) &&
            st'.records == st.records && st'.expired == st.expired
  {
    ImportSound(st, path, "");
    var st' := ImportState(st, path);
    assert forall k :: k in st'.records ==> BodyAt(st', k) == BodyAt(st, k);
    RecordsSame(u, st, fetches, st', fetches.(bodies := fetches.bodies[Blob(path.id) := fetches.bodies[path]]));
  }

  lemma RemoveTempGood(u: Url, st: StoreState, fetches: Fetches, path: BodyPath)
    requires Good(u, st, fetches) && path.Temp?
    ensures Good(u, RemoveBody(st, path), fetches) && Evolves(u.base, st, RemoveBody(st, path))
  {
    RemoveUnreferenced(st, path);
    RecordsSame(u, st, fetches, RemoveBody(st, path), fetches);
  }

  lemma RemoveTempsGood(u: Url, st: StoreState, fetches: Fetches, paths: set<BodyPath>)
    requires Good(u, st, fetches) && forall p :: p in paths ==> p.Temp?
    ensures var st' := st.(files := st.files - paths);
            Good(u, st', fetches) && Evolves(u.base, st, st')
  {
    var st' := st.(files := st.files - paths);
    BodyAtRecords(st, st');
    RecordsSame(u, st, fetches, st', fetches);
  }

  lemma PutVaryGood(u: Url, st: StoreState, fetches: Fetches, names: seq<string>)
    requires Good(u, st, fetches) && names != []
    ensures var st' := PutVaryState(st, RangeVaryKey(u.base), names);
            Good(u, st', fetches) && Evolves(u.base, st, st') && st'.history == st.history && st'.files == st.files &&
            VaryAt(st', RangeVaryKey(u.base)) == Some(names) && (!st'.expired ==> !st.expired) &&
            (forall k :: ObjectAt(st', RangeObjectKey(k)) == ObjectAt(st, RangeObjectKey(k)))
  {
    hide Sound, RecordOk, VersionOk;
    assert HasPrefix(RangeVaryKey(u.base), "rvary|");
    var key := RangeVaryKey(u.base);
    PutVarySound(st, key, names);
    PutVaryBytes(u, st, fetches, names);
    PutVaryVersions(u, st, fetches, names);
  }

  lemma PutVaryBytes(u: Url, st: StoreState, fetches: Fetches, names: seq<string>)
    requires BytesHold(u, st, fetches)
    ensures BytesHold(u, PutVaryState(st, RangeVaryKey(u.base), names), fetches)
  {
    BytesKept(u, st, fetches, PutVaryState(st, RangeVaryKey(u.base), names), fetches);
  }

  lemma PutVaryVersions(u: Url, st: StoreState, fetches: Fetches, names: seq<string>)
    requires names != []
    ensures var st' := PutVaryState(st, RangeVaryKey(u.base), names);
            (VersionsHold(u, st, fetches) ==> VersionsHold(u, st', fetches)) &&
            (forall k :: ObjectAt(st', RangeObjectKey(k)) == ObjectAt(st, RangeObjectKey(k)))
  {
    var key := RangeVaryKey(u.base);
    var st' := PutVaryState(st, key, names);
    assert HasPrefix(key, "rvary|");
    OtherKinds(u.base, key);
    OneKind(key);
    forall k
      ensures ObjectAt(st', RangeObjectKey(k)) == ObjectAt(st, RangeObjectKey(k))
    {
      assert RangeObjectKey(k)[1] == 'm' && key[1] == 'v';
    }
    if VersionsHold(u, st, fetches) {
      forall k | k in st'.records && OwnsChunk(u.base, k) && st'.records[k].ChunkRecord?
        ensures VersionOk(u, st', fetches, st'.records[k].chunk)
      {
        assert VersionOk(u, st, fetches, st.records[k].chunk);
      }
    }
  }

  lemma VersionsKept(u: Url, st: StoreState, st': StoreState, fetches: Fetches)
    requires VersionsHold(u, st, fetches) && SameMeta(u, st, st')
    requires forall k :: k in st'.records && OwnsChunk(u.base, k) && st'.records[k].ChunkRecord? ==>
               (k in st.records && st'.records[k] == st.records[k]) || VersionOk(u, st', fetches, st'.records[k].chunk)
    ensures VersionsHold(u, st', fetches)
  {
    forall k | k in st'.records && OwnsChunk(u.base, k) && st'.records[k].ChunkRecord?
      ensures VersionOk(u, st', fetches, st'.records[k].chunk)
    {
      if k in st.records && st'.records[k] == st.records[k] {
        assert VersionOk(u, st, fetches, st.records[k].chunk);
      }
    }
  }

  lemma ObjectKeyParts(a: string, b: string)
    ensures RangeObjectKey(a) == RangeObjectKey(b) ==> a == b
  {
    assert RangeObjectKey(a)[6..] == a && RangeObjectKey(b)[6..] == b;
  }

  // Writing an object that is correct, and of the version of its stored chunks.
  lemma PutObjectGood(w: World, u: Url, st: StoreState, fetches: Fetches, meta: ChunkObject)
    requires Good(u, st, fetches) && IsObjectKey(u.base, meta.key) && ObjectOk(u, RangeObjectKey(meta.key), meta)
    requires (u.base, meta) in fetches.objects
    requires !st.expired ==> ChunksOfVersion(u, st, fetches, meta.key, ValidatorsOf(meta.header))
    ensures var st' := PutObjectState(w, st, RangeObjectKey(meta.key), meta);
            Good(u, st', fetches) && Evolves(u.base, st, st') && st'.history == st.history && st'.files == st.files &&
            (!st'.expired ==> !st.expired && ObjectAt(st', RangeObjectKey(meta.key)) == Some(meta) &&
                              VaryAt(st', RangeVaryKey(u.base)) == VaryAt(st, RangeVaryKey(u.base)))
  {
    OwnedKeys(u.base, meta.key, 0);
    var key := RangeObjectKey(meta.key);
    PutObjectSound(w, st, key, meta);
    OtherKinds(u.base, key);
    OneKind(key);
    var st' := PutObjectState(w, st, key, meta);
    PutObjectBytes(w, u, st, fetches, meta);
    if !st'.expired {
      PutObjectVersions(w, u, st, fetches, meta);
    }
  }

  lemma PutObjectBytes(w: World, u: Url, st: StoreState, fetches: Fetches, meta: ChunkObject)
    requires BytesHold(u, st, fetches) && ObjectOk(u, RangeObjectKey(meta.key), meta) &&
             (u.base, meta) in fetches.objects
    ensures BytesHold(u, PutObjectState(w, st, RangeObjectKey(meta.key), meta), fetches)
  {
    BytesKept(u, st, fetches, PutObjectState(w, st, RangeObjectKey(meta.key), meta), fetches);
  }

  lemma PutObjectVersions(w: World, u: Url, st: StoreState, fetches: Fetches, meta: ChunkObject)
    requires VersionsHold(u, st, fetches) && Typed(st) && !PutObjectState(w, st, RangeObjectKey(meta.key), meta).expired
    requires ChunksOfVersion(u, st, fetches, meta.key, ValidatorsOf(meta.header))
    ensures var st' := PutObjectState(w, st, RangeObjectKey(meta.key), meta);
            VersionsHold(u, st', fetches) && ObjectAt(st', RangeObjectKey(meta.key)) == Some(meta) &&
            VaryAt(st', RangeVaryKey(u.base)) == VaryAt(st, RangeVaryKey(u.base))
  {
    hide ValidatorsOf, IsObjectKey, OwnsObject;
    var key := RangeObjectKey(meta.key);
    var st' := PutObjectState(w, st, key, meta);
    OneKind(RangeVaryKey(u.base));
    assert HasPrefix(key, "rmeta|") && HasPrefix(RangeVaryKey(u.base), "rvary|");
    forall k | k in st'.records && OwnsChunk(u.base, k) && st'.records[k].ChunkRecord?
      ensures VersionOk(u, st', fetches, st'.records[k].chunk)
    {
      assert k in st.records && VersionOk(u, st, fetches, st.records[k].chunk);
      ObjectKeyParts(st.records[k].chunk.objectKey, meta.key);
    }
  }

  // The chunks kept beside a new object are of its version, whether the stored object
  // is of that version, or there is none, or the chunks have been deleted.
  lemma VersionFromExisting(u: Url, st: StoreState, fetches: Fetches, key: string)
    requires Good(u, st, fetches) && !st.expired
    ensures var meta := ObjectAt(st, RangeObjectKey(key));
            forall v :: (meta.Some? ==> v == ValidatorsOf(meta.value.header)) ==>
              ChunksOfVersion(u, st, fetches, key, v)
  {
    forall k | k in st.records && OwnsChunk(u.base, k) && st.records[k].ChunkRecord? &&
    st.records[k].chunk.objectKey == key
      ensures VersionOk(u, st, fetches, st.records[k].chunk)
    {
    }
  }

  lemma VersionAfterDelete(u: Url, st: StoreState, fetches: Fetches, key: string, validators: Validators)
    requires Good(u, st, fetches) && forall k :: k in st.records ==> !HasPrefix(k, RangeChunkPrefix(key))
    ensures ChunksOfVersion(u, st, fetches, key, validators)
  {
    forall k | k in st.records && OwnsChunk(u.base, k) && st.records[k].ChunkRecord?
      ensures HasPrefix(k, RangeChunkPrefix(st.records[k].chunk.objectKey))
    {
      assert RecordOk(u, st.history, fetches, k, st.records[k]);
    }
  }

  // Writing a chunk that is correct and of the version of its stored object.
  lemma PutChunkGood(w: World, u: Url, st: StoreState, fetches: Fetches, key: string, chunk: ChunkEntry)
    requires Good(u, st, fetches) && OwnsChunk(u.base, key) && chunk.key == key &&
             ChunkOk(u, st.history, fetches, key, chunk)
    requires MayPut(st, key, chunk.bodyPath)
    requires !st.expired ==> VersionOk(u, st, fetches, chunk)
    ensures var st' := PutChunkState(w, st, key, chunk);
            Good(u, st', fetches) && Evolves(u.base, st, st') && (!st'.expired ==> !st.expired && SameMeta(u, st, st'))
  {
    OtherKinds(u.base, key);
    PutChunkSound(w, st, key, chunk);
    PutShape(w, st, key, ChunkRecord(chunk), chunk.invalidAt, chunk.bodyPath);
    OneKind(key);
    ChunkWritten(u, st, fetches, PutChunkState(w, st, key, chunk), key, chunk);
  }

  lemma ChunkWritten(u: Url, st: StoreState, fetches: Fetches, st': StoreState, key: string, chunk: ChunkEntry)
    requires BytesHold(u, st, fetches) && (!st.expired ==>
                                             VersionsHold(u, st, fetches) && VersionOk(u, st, fetches, chunk))
    requires HasPrefix(key, "rchunk|") && !HasPrefix(key, "rmeta|") && !HasPrefix(key, "rvary|") &&
             !HasPrefix(key, "resp|")
    requires ChunkOk(u, st.history, fetches, key, chunk) && OnlyAt(st, st', iset{key})
    requires key in st'.records ==> st'.records[key] == ChunkRecord(chunk)
    requires !st'.expired ==> st'.records == st.records[key := ChunkRecord(chunk)]
    ensures BytesHold(u, st', fetches) && (!st'.expired ==> VersionsHold(u, st', fetches) && SameMeta(u, st, st'))
  {
    BytesKept(u, st, fetches, st', fetches);
    if !st'.expired {
      SameMetaIf(u, st, st');
      VersionsKept(u, st, st', fetches);
    }
  }

  // Putting a chunk removes at most the body of an earlier fetch of the same chunk.
  lemma PutChunkFiles(w: World, u: Url, st: StoreState, fetches: Fetches, chunk: ChunkEntry)
    requires Good(u, st, fetches) && IsObjectKey(u.base, chunk.objectKey) &&
             chunk.key == RangeChunkKey(chunk.objectKey, chunk.index) && chunk.index <= MAX_INT64
    requires MayPut(st, chunk.key, chunk.bodyPath) && chunk.bodyPath != NoPath
    ensures var st' := PutChunkState(w, st, chunk.key, chunk);
            (chunk.bodyPath in st.files ==> chunk.bodyPath in st'.files) &&
            forall p :: p in st.files && p in fetches.bodies && fetches.bodies[p].index != chunk.index ==>
              p in st'.files
  {
    hide Good, PutWithBody, BodyAt, IsObjectKey, RangeChunkKey;
    PutShape(w, st, chunk.key, ChunkRecord(chunk), chunk.invalidAt, chunk.bodyPath);
    PutKeepsOwn(w, st, chunk.key, chunk);
    BodyAtChunk(u, st, fetches, chunk.objectKey, chunk.index);
  }

  lemma PutKeepsOwn(w: World, st: StoreState, key: string, chunk: ChunkEntry)
    ensures chunk.bodyPath in st.files ==> chunk.bodyPath in PutChunkState(w, st, key, chunk).files
  {
  }

  // The body a chunk key names was fetched for that chunk.
  lemma BodyAtChunk(u: Url, st: StoreState, fetches: Fetches, key: string, index: nat)
    requires Good(u, st, fetches) && IsObjectKey(u.base, key) && index <= MAX_INT64
    ensures var path := BodyAt(st, RangeChunkKey(key, index));
            (path != NoPath ==> path in fetches.bodies && fetches.bodies[path].index == index) && NoPath !in st.files
  {
    OwnedKeys(u.base, key, index);
    OneKind(RangeChunkKey(key, index));
    if ChunkAt(st, RangeChunkKey(key, index)).Some? {
      ChunkFacts(u, st, fetches, key, index);
    }
  }

  // What a stored chunk is known to be, from the key it was found under.
  lemma ChunkFacts(u: Url, st: StoreState, fetches: Fetches, key: string, index: nat)
    requires Good(u, st, fetches) && IsObjectKey(u.base, key) && ChunkAt(st, RangeChunkKey(key, index)).Some? &&
             index <= MAX_INT64
    ensures var chunk := ChunkAt(st, RangeChunkKey(key, index)).value;
            0 <= index * u.chunkSize < |u.body| && Holds(st.history, chunk.bodyPath,
                                                         Chunk(u.body, index, u.chunkSize)) &&
            chunk.bodyPath in fetches.bodies && fetches.bodies[chunk.bodyPath].index == index &&
            chunk.bodyPath in st.files && u.chunkSize > 0
  {
    var k := RangeChunkKey(key, index);
    OwnedKeys(u.base, key, index);
    OneKind(k);
    var chunk := st.records[k].chunk;
    assert RecordOk(u, st.history, fetches, k, st.records[k]);
    ChunkIndexFits(u, chunk.index);
    ChunkKeyInjective(key, index, chunk.objectKey, chunk.index);
    assert BodyAt(st, k) == chunk.bodyPath && chunk.bodyPath in st.history;
  }

  lemma ChunkIndexFits(u: Url, index: nat)
    requires u.chunkSize > 0 && index * u.chunkSize < |u.body| <= MAX_INT64
    ensures index <= MAX_INT64
  {
    MulMonotone(1, u.chunkSize, index);
  }

  // Deleting chunks of the URL.
  lemma DeleteChunksGood(w: World, u: Url, st: StoreState, fetches: Fetches, prefix: string)
    requires Good(u, st, fetches) && HasPrefix(prefix, RangeChunkPrefix(ResponseKey(u.base)))
    ensures var st' := DeletePrefixState(w, st, prefix);
            Good(u, st', fetches) && Evolves(u.base, st, st') &&
            (forall k :: k in st'.records ==> !HasPrefix(k, prefix)) &&
            st'.history == st.history && Gentle(u.base, st, st') &&
            (!st'.expired ==> !st.expired && SameMeta(u, st, st'))
  {
    DeletePrefixSound(w, st, prefix);
    DeletePrefixShape(w, st, prefix);
    forall k | HasPrefix(k, prefix)
      ensures HasPrefix(k, "rchunk|") && RangeOwned(u.base, k)
    {
      ChunkPrefixKinds(u.base, prefix, k);
    }
    DeletePrefixGentle(w, u.base, st, prefix);
    var st' := DeletePrefixState(w, st, prefix);
    ChunksDeleted(u, st, fetches, st', prefix);
    OnlyAtEvolves(u.base, st, st', iset k | HasPrefix(k, prefix));
  }

  lemma ChunkPrefixKinds(base: string, prefix: string, key: string)
    requires HasPrefix(prefix, RangeChunkPrefix(ResponseKey(base))) && HasPrefix(key, prefix)
    ensures OwnsChunk(base, key) && HasPrefix(key, "rchunk|") && RangeOwned(base, key)
  {
    PrefixTransitive(RangeChunkPrefix(ResponseKey(base)), prefix, key);
    OtherKinds(base, key);
  }

  lemma OnlyAtEvolves(base: string, st: StoreState, st': StoreState, keys: iset<string>)
    requires OnlyAt(st, st', keys) && forall k :: k in keys ==> RangeOwned(base, k)
    ensures Evolves(base, st, st')
  {
  }

  lemma ChunksDeleted(u: Url, st: StoreState, fetches: Fetches, st': StoreState, prefix: string)
    requires BytesHold(u, st, fetches) && (!st.expired ==> VersionsHold(u, st, fetches))
    requires OnlyAt(st, st', iset k | HasPrefix(k, prefix)) && forall k :: k in st'.records ==> !HasPrefix(k, prefix)
    requires forall k :: HasPrefix(k, prefix) ==> HasPrefix(k, "rchunk|")
    ensures BytesHold(u, st', fetches) && (!st'.expired ==> VersionsHold(u, st', fetches) && SameMeta(u, st, st'))
  {
    BytesKept(u, st, fetches, st', fetches);
    if !st'.expired {
      forall k | HasPrefix(k, "rmeta|") || HasPrefix(k, "rvary|")
        ensures Lookup(st', k) == Lookup(st, k)
      {
        OneKind(k);
      }
      SameMetaIf(u, st, st');
      VersionsKept(u, st, st', fetches);
    }
  }

  // Files no record names are left alone, and all are if the URL has no chunks.
  ghost predicate Gentle(base: string, st: StoreState, st': StoreState) {
    (forall p :: Loose(st, p) ==> Loose(st', p)) &&
    (NoChunks(base, st) ==> st'.files == st.files && NoChunks(base, st'))
  }

  lemma GentleTransitive(base: string, a: StoreState, b: StoreState, c: StoreState)
    requires Gentle(base, a, b) && Gentle(base, b, c)
    ensures Gentle(base, a, c)
  {
  }

  lemma LapseGentle(w: World, base: string, st: StoreState)
    ensures Gentle(base, st, Lapse(w, st))
  {
    var st' := Lapse(w, st);
    assert forall k :: k in st'.records ==> k in st.records && BodyAt(st', k) == BodyAt(st, k);
  }

  lemma GentleFacts(base: string, st: StoreState, st': StoreState)
    requires Gentle(base, st, st')
    ensures NoChunks(base, st) ==> st'.files == st.files && NoChunks(base, st')
    ensures forall p :: Loose(st, p) ==> Loose(st', p)
  {
  }

  lemma PutVaryGentle(base: string, st: StoreState, names: seq<string>)
    ensures Gentle(base, st, PutVaryState(st, RangeVaryKey(base), names))
  {
    assert HasPrefix(RangeVaryKey(base), "rvary|");
    OneKind(RangeVaryKey(base));
    OtherKinds(base, RangeVaryKey(base));
    var st' := PutVaryState(st, RangeVaryKey(base), names);
    assert forall k :: k in st'.records ==> BodyAt(st', k) == BodyAt(st, k);
  }

  lemma PutObjectGentle(w: World, base: string, st: StoreState, key: string, meta: ChunkObject)
    requires HasPrefix(key, "rmeta|")
    ensures Gentle(base, st, PutObjectState(w, st, key, meta))
  {
    OneKind(key);
    OtherKinds(base, key);
    var st' := PutObjectState(w, st, key, meta);
    assert forall k :: k in st'.records ==> BodyAt(st', k) == BodyAt(st, k);
  }

  lemma ImportGentle(base: string, st: StoreState, path: BodyPath)
    requires path.Temp? && path in st.files
    ensures forall p :: Loose(st, p) && p != path ==> Loose(ImportState(st, path), p)
    ensures NoChunks(base, st) ==> NoChunks(base, ImportState(st, path))
  {
    var st' := ImportState(st, path);
    assert forall k :: k in st'.records ==> BodyAt(st', k) == BodyAt(st, k);
  }

  lemma DeletePrefixGentle(w: World, base: string, st: StoreState, prefix: string)
    requires Typed(st) && forall k :: HasPrefix(k, prefix) ==> RangeOwned(base, k)
    ensures Gentle(base, st, DeletePrefixState(w, st, prefix))
  {
    var st1, st' := Lapse(w, st), DeletePrefixState(w, st, prefix);
    assert forall k :: k in st'.records ==> k in st.records && BodyAt(st', k) == BodyAt(st, k);
    assert forall k :: k in st1.records ==> BodyAt(st1, k) == BodyAt(st, k);
    if NoChunks(base, st) {
      forall k | k in Matching(st1, prefix)
        ensures BodyAt(st1, k) == NoPath
      {
        OwnedBodies(base, k);
      }
      assert Bodies(st1, Matching(st1, prefix)) == {};
    }
  }

  lemma OwnedBodies(base: string, key: string)
    requires RangeOwned(base, key)
    ensures !HasPrefix(key, "resp|") && (HasPrefix(key, "rchunk|") ==> OwnsChunk(base, key))
  {
    OneKind(key);
    assert HasPrefix(RangeVaryKey(base), "rvary|");
    if HasPrefix(key, RangeObjectKey(ResponseKey(base))) {
      PrefixTransitive("rmeta|", RangeObjectKey(ResponseKey(base)), key);
    } else if OwnsChunk(base, key) {
      OtherKinds(base, key);
    }
  }

  lemma DeleteVaryGentle(w: World, base: string, st: StoreState)
    ensures Gentle(base, st, DeleteState(w, st, RangeVaryKey(base)))
  {
    assert HasPrefix(RangeVaryKey(base), "rvary|");
    OneKind(RangeVaryKey(base));
    var st' := DeleteState(w, st, RangeVaryKey(base));
    assert forall k :: k in st'.records ==> k in st.records && BodyAt(st', k) == BodyAt(st, k);
  }

  // Deleting any range records of the URL keeps the bytes right, whatever becomes of versions.
  lemma DeleteOwnedSafe(w: World, u: Url, st: StoreState, fetches: Fetches, prefix: string)
    requires Safe(u, st, fetches) && forall k :: HasPrefix(k, prefix) ==> RangeOwned(u.base, k)
    ensures var st' := DeletePrefixState(w, st, prefix);
            Safe(u, st', fetches) && Evolves(u.base, st, st') && st'.history == st.history && Gentle(u.base, st, st') &&
            (forall k :: k in st'.records ==> k in st.records && !HasPrefix(k, prefix))
  {
    DeletePrefixSound(w, st, prefix);
    DeletePrefixShape(w, st, prefix);
    DeletePrefixGentle(w, u.base, st, prefix);
    var st' := DeletePrefixState(w, st, prefix);
    BytesKept(u, st, fetches, st', fetches);
    OnlyAtEvolves(u.base, st, st', iset k | HasPrefix(k, prefix));
  }

  lemma DeleteVarySafe(w: World, u: Url, st: StoreState, fetches: Fetches)
    requires Safe(u, st, fetches)
    ensures var st' := DeleteState(w, st, RangeVaryKey(u.base));
            Safe(u, st', fetches) && Evolves(u.base, st, st') && st'.history == st.history && Gentle(u.base, st, st') &&
            (forall k :: k in st'.records ==> k in st.records && k != RangeVaryKey(u.base))
  {
    DeleteSound(w, st, RangeVaryKey(u.base));
    DeleteVaryGentle(w, u.base, st);
    assert HasPrefix(RangeVaryKey(u.base), "rvary|");
    OneKind(RangeVaryKey(u.base));
    BytesKept(u, st, fetches, DeleteState(w, st, RangeVaryKey(u.base)), fetches);
  }

  lemma PurgedFacts(base: string, st: StoreState)
    requires forall k :: k in st.records ==> !RangeOwned(base, k)
    ensures NoChunks(base, st) && VaryAt(st, RangeVaryKey(base)) == None
  {
  }

  lemma NoChunksOfVersion(u: Url, st: StoreState, fetches: Fetches, key: string, validators: Validators)
    requires NoChunks(u.base, st)
    ensures ChunksOfVersion(u, st, fetches, key, validators)
  {
  }

  lemma VaryNotEmpty(u: Url, st: StoreState, fetches: Fetches)
    requires Good(u, st, fetches) && !st.expired
    ensures VaryAt(st, RangeVaryKey(u.base)) != Some([])
  {
  }

  lemma PurgedGood(u: Url, st: StoreState, fetches: Fetches)
    requires Safe(u, st, fetches) && forall k :: k in st.records ==> !RangeOwned(u.base, k)
    ensures Good(u, st, fetches) && VaryAt(st, RangeVaryKey(u.base)) == None
  {
  }

  lemma OwnedPrefixes(base: string, key: string)
    ensures HasPrefix(key, RangeObjectKey(ResponseKey(base))) ==> RangeOwned(base, key)
    ensures HasPrefix(key, RangeChunkPrefix(ResponseKey(base))) ==> RangeOwned(base, key)
    ensures HasPrefix(key, "rmeta|" + VariantPrefix(base)) ==> RangeOwned(base, key)
    ensures HasPrefix(key, "rchunk|" + VariantPrefix(base)) ==> RangeOwned(base, key)
  {
    var a, b := RangeObjectKey(ResponseKey(base)), "rmeta|" + VariantPrefix(base);
    assert b[..|a|] == a;
    if HasPrefix(key, b) { PrefixTransitive(a, b, key); }
    var c, d := RangeChunkPrefix(ResponseKey(base)), "rchunk|" + VariantPrefix(base);
    assert d[..|c|] == c;
    if HasPrefix(key, d) { PrefixTransitive(c, d, key); }
  }

  // The chunks a touch is about to rewrite are correct, and of their objects' versions.
  ghost predicate TouchReady(u: Url, st: StoreState, fetches: Fetches, chunks: seq<ChunkEntry>) {
    forall i :: 0 <= i < |chunks| ==>
      OwnsChunk(u.base, chunks[i].key) && ChunkOk(u, st.history, fetches, chunks[i].key, chunks[i]) &&
      (!st.expired ==> VersionOk(u, st, fetches, chunks[i]))
  }

  lemma TouchListed(u: Url, st: StoreState, fetches: Fetches, key: string, chunks: seq<ChunkEntry>)
    requires Good(u, st, fetches) && IsObjectKey(u.base, key) && ListsChunks(st, RangeChunkPrefix(key), chunks)
    ensures Remaining(st, chunks) && TouchReady(u, st, fetches, chunks)
  {
    OwnedKeys(u.base, key, 0);
    ListedRemain(st, RangeChunkPrefix(key), chunks);
    forall i | 0 <= i < |chunks|
      ensures OwnsChunk(u.base, chunks[i].key) && ChunkOk(u, st.history, fetches, chunks[i].key, chunks[i])
      ensures !st.expired ==> VersionOk(u, st, fetches, chunks[i])
    {
      ChunkPrefixKinds(u.base, RangeChunkPrefix(key), chunks[i].key);
      assert RecordOk(u, st.history, fetches, chunks[i].key, st.records[chunks[i].key]);
    }
  }

  lemma {:induction false} TouchGood(w: World, u: Url, st: StoreState, fetches: Fetches, chunks: seq<ChunkEntry>,
                                     invalidAt: int)
    requires Good(u, st, fetches) && Remaining(st, chunks) && TouchReady(u, st, fetches, chunks)
    ensures var st' := TouchAll(w, st, chunks, invalidAt);
            Good(u, st', fetches) && Evolves(u.base, st, st') && (!st'.expired ==> !st.expired && SameMeta(u, st, st'))
    decreases |chunks|
  {
    if chunks != [] {
      var chunk := chunks[0].(invalidAt := invalidAt);
      RemainingStep(w, st, chunks, invalidAt);
      assert MayPut(st, chunks[0].key, chunks[0].bodyPath) && OwnsChunk(u.base, chunks[0].key);
      PutChunkGood(w, u, st, fetches, chunk.key, chunk);
      var next := PutChunkState(w, st, chunk.key, chunk);
      forall i | 0 <= i < |chunks[1..]|
        ensures OwnsChunk(u.base, chunks[1..][i].key) &&
                ChunkOk(u, next.history, fetches, chunks[1..][i].key, chunks[1..][i])
        ensures !next.expired ==> VersionOk(u, next, fetches, chunks[1..][i])
      {
        assert chunks[1..][i] == chunks[i + 1];
      }
      TouchGood(w, u, next, fetches, chunks[1..], invalidAt);
      EvolvesTransitive(u.base, st, next, TouchAll(w, st, chunks, invalidAt));
    }
  }
}
