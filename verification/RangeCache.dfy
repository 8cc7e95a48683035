/** The range cache: chunks are looked up, revalidated, fetched and stored, and
    stitched into 206 responses. */
module RangeCaching {
  import opened Text
  import opened Headers
  import opened CacheKeys
  import opened Freshness
  import Directives
  import opened Policies
  import opened ByteRange
  import opened BlobStore
  import opened RangeModel
  import opened RangeParts

  datatype Request = Request(verb: string, header: Header)

  datatype FetchReply = FetchFailed | Reply(status: int, header: Header, body: seq<Byte>, contentLength: int)

  datatype State = Bypassed | Miss | Hit | Stale

  datatype RangeResult = RangeResult(state: State, status: int, header: Header, parts: seq<RangePart>,
                                     contentLength: int)

  // NotServed hands the request on to the other paths; Crashed is a division by zero.
  datatype RangeOutcome = Served(result: RangeResult) | NotServed | UpstreamError | Crashed

  datatype Revalidation = RevalidationFailed | NotRenewed | Renewed(meta: ChunkObject, key: string)

  datatype ChunkReply = ReplyFailed | ReplyBypass
      | ChunkReply(response: StoredResponse, meta: ChunkObject, decision: Decision, fullObject: bool)

  datatype ChunkFetch = ChunkFailed | ChunkBypass | ChunkFetched(part: RangePart, meta: ChunkObject, fullObject: bool)

  // A request sent to the origin, and the URL it was sent for.
  datatype Query = Query(base: string, request: Request)

  // What was sent under the URL's key was sent for that URL.
  ghost predicate SentForOneUrl(log: seq<Query>, site: string, path: string, rawQuery: string) {
    forall n, site', path', rawQuery' ::
      0 <= n < |log| && '|' !in site' && log[n].base == BaseKey(site, path, rawQuery) &&
      log[n].base == BaseKey(site', path', rawQuery') ==>
        SameUrl(site, path, rawQuery, site', path', rawQuery')
  }

  lemma KeyTellsUrl(log: seq<Query>, site: string, path: string, rawQuery: string)
    requires '|' !in site
    ensures SentForOneUrl(log, site, path, rawQuery)
  {
    hide BaseKey, SameUrl;
    forall site', path', rawQuery' | '|' !in site' && BaseKey(site, path, rawQuery) == BaseKey(site', path', rawQuery')
      ensures SameUrl(site, path, rawQuery, site', path', rawQuery')
    {
      SameUrlIff(site, path, rawQuery, site', path', rawQuery');
    }
  }

  // A range request about to be handled: its URL, policy, fields and range, and the
  // store, the next clock reading and the next request to the origin at that moment.
  datatype Occasion = Occasion(
    base: string, policy: Policy, header: Header, spec: RangeSpec, st: StoreState, tick: nat, call: nat)

  // The fields an object is renewed from, if the reply to a HEAD request renews it.
  function RenewalFields(meta: ChunkObject, reply: FetchReply): Option<Header> {
    if reply.FetchFailed? then None
    else if reply.status == 304 then Some(MergeRevalidated(meta.header, reply.header))
    else if reply.status == 200 then Some(SanitizeChunk(reply.header))
    else None
  }

  // A 304 renews the stored fields with its own, a 200 replaces them, and no other reply
  // renews anything.
  lemma RenewalFieldsAre(meta: ChunkObject, reply: FetchReply, name: string)
    ensures RenewalFields(meta, reply).Some? <==> reply.Reply? && reply.status in {200, 304}
    ensures reply.Reply? && reply.status == 304 ==>
              Values(RenewalFields(meta, reply).value, name) ==
              if name in SanitizeStored(reply.header) then SanitizeStored(reply.header)[name]
              else Values(SanitizeStored(meta.header), name)
    ensures reply.Reply? && reply.status == 200 ==> RenewalFields(meta, reply) == Some(SanitizeChunk(reply.header))
  {
    hide SanitizeStored, SanitizeChunk, MergeRevalidated;
    if reply.Reply? { MergedFieldsAre(meta.header, reply.header, name); }
  }

  // The object dated, unless it already is.
  ghost function Registered(fetches: Fetches, base: string, meta: ChunkObject, d: Dating): Fetches {
    if (base, meta) in fetches.objects then fetches else fetches.(objects := fetches.objects[(base, meta) := d])
  }

  lemma RegisteredLearns(u: Url, st: StoreState, fetches: Fetches, meta: ChunkObject, d: Dating)
    ensures var fetches' := Registered(fetches, u.base, meta, d);
            Learns(fetches, fetches') && (u.base, meta) in fetches'.objects && fetches'.bodies == fetches.bodies &&
            (Good(u, st, fetches) ==> Good(u, st, fetches'))
  {
    if Good(u, st, fetches) { RecordsSame(u, st, fetches, st, Registered(fetches, u.base, meta, d)); }
  }

  // A version, the Vary names of the responses that carry it, and the forms their fields
  // are stored in.
  datatype Steady = Steady(validators: Validators, names: seq<string>, forms: iset<Header>)

  // The fields are of that version, and vary on those names for the given request.
  ghost predicate SteadyFields(h: Header, steady: Steady, fields: Header) {
    ValidatorsOf(fields) == steady.validators &&
    var names := ParseVary(Values(fields, "Vary"));
    (names.Some? ==> EffectiveVary(h, Some(fields), names.value) == steady.names)
  }

  ghost predicate SteadyStored(h: Header, steady: Steady, fields: Header) {
    fields in steady.forms && SteadyFields(h, steady, fields)
  }

  // A partial reply, or a full one to a HEAD request, is of the version and its names,
  // with and without its connection fields; a 304 leaves fields of that version as such.
  ghost predicate SteadyReply(h: Header, steady: Steady, verb: string, reply: FetchReply)
    requires reply.Reply?
  {
    (reply.status == 206 || (reply.status == 200 && verb == "HEAD") ==>
       SteadyFields(h, steady, reply.header) && SteadyStored(h, steady, SanitizeChunk(reply.header))) &&
    (reply.status == 304 && verb == "HEAD" ==>
       forall fields :: SteadyStored(h, steady, fields) ==>
         SteadyStored(h, steady, SanitizeChunk(MergeRevalidated(fields, reply.header))))
  }

  // What is left of fields without a Connection field.
  lemma SanitizePlain(fields: Header)
    requires "Connection" !in fields
    ensures SanitizeStored(fields) == fields - HOP_BY_HOP - {"Content-Length"} &&
            SanitizeChunk(fields) == fields - HOP_BY_HOP - {"Content-Length", "Content-Range"}
  {
    assert ConnectionTokens(Values(fields, "Connection")) == [];
    assert (set t | t in [] :: CanonicalKey(TrimSpace(t))) == {};
    assert StripHopByHop(fields) == fields - HOP_BY_HOP - {} == fields - HOP_BY_HOP;
  }

  // The field of a confirmed response, as it is stored again: that of the 304 if it has
  // one, and the stored one if not.
  lemma ConfirmedField(fields: Header, reply: Header, name: string)
    requires "Connection" !in fields && name !in HOP_BY_HOP && name !in {"Content-Length", "Content-Range"}
    ensures var again, updates := SanitizeChunk(MergeRevalidated(fields, reply)), SanitizeStored(reply);
            Values(again, name) == if name in updates then updates[name] else Values(fields, name)
  {
    hide StripHopByHop;
    var merged := MergeRevalidated(fields, reply);
    assert "Connection" in HOP_BY_HOP;
    assert "Connection" !in SanitizeStored(fields) && "Connection" !in SanitizeStored(reply) by {
      NoConnection(fields);
      NoConnection(reply);
    }
    SanitizePlain(fields);
    SanitizePlain(merged);
  }

  lemma SanitizeTwice(fields: Header)
    ensures SanitizeChunk(SanitizeChunk(fields)) == SanitizeChunk(fields)
  {
    hide StripHopByHop;
    NoConnection(fields);
    SanitizePlain(SanitizeChunk(fields));
    assert forall name :: name in HOP_BY_HOP ==> name !in StripHopByHop(fields) by { HopByHopGoes(fields); }
  }

  lemma HopByHopGoes(fields: Header)
    ensures forall name :: name in HOP_BY_HOP ==> name !in StripHopByHop(fields)
  {
  }

  lemma NoConnection(fields: Header)
    ensures "Connection" !in SanitizeStored(fields)
  {
    assert "Connection" in HOP_BY_HOP;
  }

  // A 304 need not repeat what it confirms. If it repeats Vary and the allowed origin as
  // they are stored, or not at all, the stored fields stay of their version exactly if
  // the validators it does repeat are those.
  lemma ConfirmationKeepsIff(h: Header, steady: Steady, fields: Header, reply: Header)
    requires "Connection" !in fields && SteadyFields(h, steady, fields)
    requires forall name :: name in SanitizeStored(reply) && name in {"Vary", "Access-Control-Allow-Origin"} ==>
               SanitizeStored(reply)[name] == Values(fields, name)
    ensures var updates := SanitizeStored(reply);
            SteadyFields(h, steady, SanitizeChunk(MergeRevalidated(fields, reply))) <==>
              ("Etag" in updates ==> TrimSpace(Get(updates, "Etag")) == steady.validators.etag) &&
              ("Last-Modified" in updates ==>
                 TrimSpace(Get(updates, "Last-Modified")) == steady.validators.lastModified)
  {
    hide SanitizeStored, SanitizeChunk, MergeRevalidated, ParseVary, Sort, CanonicalNames, TrimSpace;
    ConfirmedField(fields, reply, "Vary");
    ConfirmedField(fields, reply, "Access-Control-Allow-Origin");
    ConfirmedField(fields, reply, "Etag");
    ConfirmedField(fields, reply, "Last-Modified");
    GetsFirst(SanitizeChunk(MergeRevalidated(fields, reply)));
    GetsFirst(fields);
    GetsFirst(SanitizeStored(reply));
  }

  lemma GetsFirst(h: Header)
    ensures forall name: string :: Get(h, name) == if Values(h, name) == [] then "" else Values(h, name)[0]
  {
  }

  // Whatever fields a version is stored with, a 304 that repeats some of its validators,
  // or none, is steady.
  lemma PartialConfirmationIsSteady(h: Header, steady: Steady, reply: FetchReply)
    requires reply.Reply? && reply.status == 304 && steady.forms == iset fields: Header | "Connection" !in fields
    requires var updates := SanitizeStored(reply.header);
             "Vary" !in updates && "Access-Control-Allow-Origin" !in updates &&
             ("Etag" in updates ==> TrimSpace(Get(updates, "Etag")) == steady.validators.etag) &&
             ("Last-Modified" in updates ==>
                TrimSpace(Get(updates, "Last-Modified")) == steady.validators.lastModified)
    ensures SteadyReply(h, steady, "HEAD", reply)
  {
    hide SanitizeStored, MergeRevalidated, SteadyFields, TrimSpace;
    forall fields | SteadyStored(h, steady, fields)
      ensures SteadyStored(h, steady, SanitizeChunk(MergeRevalidated(fields, reply.header)))
    {
      ConfirmationKeepsIff(h, steady, fields, reply.header);
      NoConnection(MergeRevalidated(fields, reply.header));
    }
  }

  // So is one that repeats some of the fields of the one form a version is stored in.
  lemma RepeatedFieldsAreSteady(h: Header, steady: Steady, reply: FetchReply, fields: Header)
    requires reply.Reply? && reply.status == 304 && steady.forms == iset{fields} && fields == SanitizeChunk(fields)
    requires forall name :: name in SanitizeChunk(reply.header) ==>
               name in fields && fields[name] == reply.header[name] != []
    ensures SanitizeChunk(MergeRevalidated(fields, reply.header)) == fields && SteadyReply(h, steady, "HEAD", reply)
  {
    hide StripHopByHop, SteadyFields;
    NoConnection(fields);
    NoConnection(reply.header);
    SanitizePlain(fields);
    SanitizePlain(MergeRevalidated(fields, reply.header));
    var again := SanitizeChunk(MergeRevalidated(fields, reply.header));
    assert forall name :: name in HOP_BY_HOP ==> name !in fields;
    SubsetOfFields(reply.header);
  }

  lemma SubsetOfFields(fields: Header)
    ensures forall name :: name in SanitizeStored(fields) ==>
              name in fields && SanitizeStored(fields)[name] == fields[name]
  {
  }

  lemma MetadataNames(parseTime: string -> Option<int>, now: int, policy: Policy, fields: Header)
    ensures var decision := DecideChunkMetadata(parseTime, now, policy, fields);
            decision.Some? ==> ParseVary(Values(fields, "Vary")) == Some(decision.value.vary)
    ensures var decision := DecideChunkStore(parseTime, now, policy, 206, fields);
            decision.store ==> ParseVary(Values(fields, "Vary")) == Some(decision.vary)
  {
    hide ParseVary, ParseCacheControl, Ttl;
  }

  const ZERO_OBJECT: ChunkObject := ChunkObject("", "", "", "", Windows(0, 0, 0, 0), 0, map[], 0, 0)

  // An origin that has one representation of the URL sends that: all of it with 200,
  // or the requested part of it with 206. It may answer anything else at any time.
  ghost predicate HonestReply(body: seq<Byte>, request: Request, reply: FetchReply) {
    var spec := ParseSingleByteRange(Get(request.header, "Range"));
    reply.Reply? && request.verb == "GET" && spec.Some? ==>
      (reply.status == 200 && Get(reply.header, "Content-Range") == "" ==>
         reply.body == body && reply.contentLength == |body|) &&
      (reply.status == 206 && ParseContentRange(Get(reply.header, "Content-Range")).Some? ==>
         var r := Resolve(spec.value, |body|);
         ParseContentRange(Get(reply.header, "Content-Range")).value.total == |body| &&
         r.Some? && 0 <= r.value.start <= r.value.end < |body| &&
         reply.body == body[r.value.start..r.value.end + 1] && reply.contentLength == |reply.body|)
  }

  ghost predicate Usable(reply: FetchReply) {
    reply.Reply? && reply.status == 206 && PlainEncoding(reply.header) && Get(reply.header, "Content-Range") != "" &&
    ParseContentRange(Get(reply.header, "Content-Range")).Some?
  }

  // What an honest reply to the request for one chunk carries.
  lemma HonestChunk(body: seq<Byte>, request: Request, reply: FetchReply, index: nat, chunkSize: int)
    requires HonestReply(body, request, reply) && reply.Reply? && request.verb == "GET" && 0 < |body| && chunkSize > 0
    requires ParseSingleByteRange(Get(request.header, "Range")) ==
               Some(RangeSpec(index * chunkSize, index * chunkSize + chunkSize - 1, true, false, 0))
    ensures reply.status == 200 && Get(reply.header, "Content-Range") == "" ==>
              reply.body == body && reply.contentLength == |body|
    ensures reply.status == 206 && ParseContentRange(Get(reply.header, "Content-Range")).Some? ==>
              0 <= index * chunkSize < |body| && reply.body == Chunk(body, index, chunkSize) &&
              reply.contentLength > 0 &&
              ParseContentRange(Get(reply.header, "Content-Range")).value.total == |body|
  {
    hide ParseSingleByteRange, ParseContentRange;
  }

  function PartialHeader(h: Header, total: nat, r: Resolved): Header
    requires 0 <= r.start <= r.end
  {
    SanitizeChunk(h)["Accept-Ranges" := ["bytes"]]["Content-Range" := [ContentRangeHeader(r.start, r.end, total)]]
    ["Content-Length" := [FormatInt(r.end - r.start + 1)]]
  }

  // A partial response has the stored fields as they were received, and says itself what
  // part it is; the place and the length are pinned with the answers.
  lemma PartialFieldsAre(h: Header, total: nat, r: Resolved, name: string)
    requires 0 <= r.start <= r.end
    ensures var fields := PartialHeader(h, total, r);
            Values(fields, "Accept-Ranges") == ["bytes"] &&
            Values(fields, "Content-Range") == ["bytes " + FormatInt(r.start) + "-" + FormatInt(r.end) + "/" +
                                                FormatInt(total)] &&
            Values(fields, "Content-Length") == [FormatInt(r.end + 1 - r.start)] &&
            (name in {"Accept-Ranges", "Content-Range", "Content-Length", "Connection", "Keep-Alive",
                      "Proxy-Authenticate", "Proxy-Authorization", "Te", "Trailer", "Transfer-Encoding", "Upgrade"} ||
             NamesOption(h, name) || Values(fields, name) == Values(h, name))
  {
    hide SanitizeChunk, SanitizeStored, FormatInt, NamesOption;
    StoredFieldsAre(h, name);
    assert "bytes " + FormatInt(r.start) + "-" + FormatInt(r.end) + "/" + FormatInt(total) ==
           ContentRangeHeader(r.start, r.end, total);
  }

  // What a range that selects nothing is answered.
  lemma NotSatisfiableIs(state: State, total: nat)
    ensures var result := NotSatisfiable(state, total);
            result.state == state && result.status == 416 && result.parts == [] && result.contentLength == 0 &&
            result.header == map["Content-Range" := ["bytes */" + FormatInt(total)]]
  {
  }

  // The three results of a range have the fields of what they come from.
  lemma ResultFieldsAre(spec: RangeSpec, meta: ChunkObject, part: RangePart, response: StoredResponse, r: Resolved)
    requires meta.totalLength > 0 && response.contentLength > 0 && WellFormed(spec)
    ensures WholeResult(spec, meta, part).status == 206 && Resolve(spec, meta.totalLength) == Some(r) &&
            0 <= r.start <= r.end ==>
              WholeResult(spec, meta, part).header == PartialHeader(meta.header, meta.totalLength, r)
    ensures FullObjectResult(spec, response).status == 206 && Resolve(spec, response.contentLength) == Some(r) &&
            0 <= r.start <= r.end ==>
              FullObjectResult(spec, response).header == PartialHeader(response.header, response.contentLength, r)
  {
    hide PartialHeader;
  }

  function NotSatisfiable(state: State, total: nat): RangeResult {
    RangeResult(state, 416, map["Content-Range" := ["bytes */" + FormatInt(total)]], [], 0)
  }

  lemma UnsatisfiableDiffers(total: nat)
    requires total > 0
    ensures NotSatisfiable(Bypassed, total) != NotSatisfiable(Bypassed, 0)
    ensures NotSatisfiable(Bypassed, total).parts == [] &&
            NotSatisfiable(Bypassed, total).state == NotSatisfiable(Bypassed, 0).state == Bypassed
  {
    FormatIntValue(total);
    FormatIntValue(0);
    var a, b := "bytes */" + FormatInt(total), "bytes */" + FormatInt(0);
    assert a[8..] == FormatInt(total) && b[8..] == FormatInt(0);
    assert NotSatisfiable(Bypassed, total).header["Content-Range"][0] == a;
  }

  // The response stands for exactly the bytes section 14.1.2 of RFC 9110 selects, and says so.
  ghost predicate Correct206(u: Url, spec: RangeSpec, history: Files, result: RangeResult) {
    var r := Resolve(spec, |u.body|);
    result.status == 206 && r.Some? && 0 <= r.value.start <= r.value.end < |u.body| &&
    AllReadable(history, result.parts) && Contents(history, result.parts) == u.body[r.value.start..r.value.end + 1] &&
    result.contentLength == r.value.end - r.value.start + 1 &&
    ParseContentRange(Get(result.header, "Content-Range")) == Some(ContentRange(r.value.start, r.value.end, |u.body|))
  }

  function ChunkResult(meta: ChunkObject, parts: seq<RangePart>, r: Resolved, state: State): RangeResult
    requires meta.totalLength >= 0 && 0 <= r.start <= r.end
  {
    RangeResult(state, 206, PartialHeader(meta.header, meta.totalLength, r), parts, r.end - r.start + 1)
  }

  lemma KeysAreObjectKeys(digest: string -> string, base: string, names: seq<string>, h: Header,
                          spec: Option<seq<string>>)
    ensures IsObjectKey(base, StorageKey(digest, base, names, h))
    ensures IsObjectKey(base, LookupKey(digest, base, h, spec))
  {
    assert forall s: string :: HasPrefix(VariantPrefix(base) + s, VariantPrefix(base));
  }

  lemma ChunkEndFits(index: nat, chunkSize: int)
    requires chunkSize > 0 && (MAX_INT64 + 1) % chunkSize == 0 && index * chunkSize <= MAX_INT64
    ensures 0 <= index * chunkSize && index * chunkSize + chunkSize - 1 <= MAX_INT64
  {
    TilingFitsInt64(index * chunkSize, chunkSize);
    DivBounds(index * chunkSize, chunkSize);
    MulMonotone(0, index, chunkSize);
    var q := index * chunkSize / chunkSize;
    MulSuccessor(q, chunkSize);
    if q < index {
      MulMonotone(q + 1, index, chunkSize);
    } else {
      MulMonotone(index, q, chunkSize);
    }
  }

  function OptionalNames(names: seq<string>): Option<seq<string>> {
    if names == [] then None else Some(names)
  }

  lemma NamesOptional(names: seq<string>)
    ensures OptionalNames(names) == None <==> names == []
    ensures OptionalNames(names).Some? ==> OptionalNames(names).value == names
  {
  }

  // The store already agrees with a response of this version and these Vary names.
  ghost predicate Agrees(u: Url, st: StoreState, key: string, validators: Validators, names: seq<string>) {
    var meta := ObjectAt(st, RangeObjectKey(key));
    VaryAt(st, RangeVaryKey(u.base)) == OptionalNames(names) &&
    (meta.Some? ==> ValidatorsOf(meta.value.header) == validators)
  }

  // The chunk is stored under its object, with this body, for as long as the object is valid.
  ghost predicate ChunkStored(st: StoreState, meta: ChunkObject, index: nat, path: BodyPath) {
    var chunk := ChunkAt(st, RangeChunkKey(meta.key, index));
    chunk.Some? && chunk.value.bodyPath == path && chunk.value.invalidAt == meta.windows.invalidAt &&
    chunk.value.objectKey == meta.key
  }

  lemma PutIsStored(w: World, st: StoreState, meta: ChunkObject, index: nat, chunk: ChunkEntry)
    requires chunk.key == RangeChunkKey(meta.key, index) && chunk.objectKey == meta.key &&
             chunk.invalidAt == meta.windows.invalidAt
    ensures var st' := PutChunkState(w, st, chunk.key, chunk);
            !st'.expired ==> ChunkStored(st', meta, index, chunk.bodyPath)
  {
    hide PutWithBody, RangeChunkKey;
    PutShape(w, st, chunk.key, ChunkRecord(chunk), chunk.invalidAt, chunk.bodyPath);
  }

  // Only bodies fetched for the given chunk may have been removed.
  ghost predicate Spares(st: StoreState, st': StoreState, fetches: Fetches, index: int) {
    forall p :: p in st.files && p in fetches.bodies && fetches.bodies[p].index != index ==> p in st'.files
  }

  // The parts collected so far, the object they were collected under, and the indexes needed.
  datatype Progress = Progress(parts: map<int, RangePart>, key: string, meta: Option<ChunkObject>, totalLength: int,
                               indexes: seq<int>)

  // The object to answer from, after any renewal, and the time to judge it at.
  datatype CurrentObject = RenewalFailed | Current(key: string, meta: ChunkObject, renewed: bool, now: int)

  datatype FillPlan = PlanBypass | PlanUnsatisfiable | Plan(totalLength: int, indexes: seq<int>)

  // The chunk is missing or no longer valid.
  ghost predicate Unusable(st: StoreState, key: string, index: int, now: int) {
    index >= 0 ==> var chunk := ChunkAt(st, RangeChunkKey(key, index)); chunk.None? || chunk.value.invalidAt <= now
  }

  // At some reading from the given one on, one of the chunks could not be used.
  ghost predicate AnyUnusable(clock: nat -> int, st: StoreState, key: string, indexes: seq<int>, from: nat) {
    exists n, tick :: 0 <= n < |indexes| && tick >= from && Unusable(st, key, indexes[n], clock(tick))
  }

  // Each of the chunks was there and valid at its reading.
  ghost predicate AllUsable(clock: nat -> int, st: StoreState, key: string, indexes: seq<int>, from: nat) {
    forall n :: 0 <= n < |indexes| ==> !Unusable(st, key, indexes[n], clock(from + n))
  }

  // The object's chunks stay valid until the given time.
  ghost predicate ChunksUntil(st: StoreState, key: string, invalidAt: int) {
    forall k :: HasPrefix(k, RangeChunkPrefix(key)) && ChunkAt(st, k).Some? ==>
      ChunkAt(st, k).value.invalidAt == invalidAt
  }

  lemma TouchedUntil(w: World, st: StoreState, key: string, chunks: seq<ChunkEntry>, invalidAt: int)
    requires ListsChunks(st, RangeChunkPrefix(key), chunks)
    ensures !TouchAll(w, st, chunks, invalidAt).expired ==>
              ChunksUntil(TouchAll(w, st, chunks, invalidAt), key, invalidAt)
  {
    hide TouchAll, RangeChunkPrefix;
    TouchAllWrites(w, st, chunks, invalidAt);
    var st' := TouchAll(w, st, chunks, invalidAt);
    if !st'.expired {
      forall k | HasPrefix(k, RangeChunkPrefix(key)) && ChunkAt(st', k).Some?
        ensures ChunkAt(st', k).value.invalidAt == invalidAt
      {
        assert k in st.records ==> k in Matching(st, RangeChunkPrefix(key));
        assert (forall i :: 0 <= i < |chunks| ==> chunks[i].key != k) ==> Lookup(st', k) == Lookup(st, k);
      }
    }
  }

  lemma TouchAddsNone(w: World, base: string, st: StoreState, key: string, chunks: seq<ChunkEntry>, invalidAt: int)
    requires ListsChunks(st, RangeChunkPrefix(key), chunks)
    ensures !TouchAll(w, st, chunks, invalidAt).expired && NoChunks(base, st) ==>
              NoChunks(base, TouchAll(w, st, chunks, invalidAt))
  {
    hide TouchAll, RangeChunkPrefix, OwnsChunk;
    TouchAllWrites(w, st, chunks, invalidAt);
    var st' := TouchAll(w, st, chunks, invalidAt);
    forall k | k in st'.records && !st'.expired
      ensures k in st.records
    {
      assert (forall i :: 0 <= i < |chunks| ==> chunks[i].key != k) ==> Lookup(st', k) == Lookup(st, k);
    }
  }

  lemma SameMetaFrom(u: Url, st: StoreState, st1: StoreState, st2: StoreState)
    ensures st1.records == st.records && SameMeta(u, st1, st2) ==> SameMeta(u, st, st2)
  {
  }

  // What a renewal ahead of a fill comes to.
  datatype RenewStep = RenewFailed | RenewServed(result: RangeResult)
      | Proceed(key: string, meta: ChunkObject, totalLength: int)

  // What collecting parts comes to.
  datatype FillStep = FillError | FillBypass | FillServed(result: RangeResult) | Filled(progress: Progress)

  // The indexes are chunks of the body and hold all that the range needs.
  ghost predicate InsideAndEnough(u: Url, spec: RangeSpec, indexes: seq<int>) {
    u.chunkSize > 0 && (forall i :: 0 <= i < |indexes| ==> indexes[i] * u.chunkSize < |u.body|) &&
    (Resolve(spec, |u.body|).Some? ==> var needed := ChunkIndexes(Resolve(spec, |u.body|).value, u.chunkSize);
     forall i :: 0 <= i < |needed| ==> needed[i] in indexes)
  }

  // What is asked for while the length is unknown.
  function Asked(spec: RangeSpec): Resolved {
    Resolved(spec.start, if spec.hasEnd then spec.end else spec.start)
  }

  // Asking without the length asks for chunks of the body only, and for all it takes.
  ghost predicate AsksEnough(u: Url, spec: RangeSpec) {
    u.chunkSize > 0 && !spec.suffix && InsideAndEnough(u, spec, ChunkIndexes(Asked(spec), u.chunkSize))
  }

  lemma NeededIsEnough(u: Url, spec: RangeSpec)
    requires u.chunkSize > 0 && 0 < |u.body| && WellFormed(spec) && Resolve(spec, |u.body|).Some?
    ensures InsideAndEnough(u, spec, ChunkIndexes(Resolve(spec, |u.body|).value, u.chunkSize))
  {
    ResolveMeetsRfc(spec, |u.body|);
    var r := Resolve(spec, |u.body|).value;
    forall index | r.start / u.chunkSize <= index <= r.end / u.chunkSize
      ensures index * u.chunkSize < |u.body|
    {
      IndexBounds(r, index, u.chunkSize);
    }
  }

  ghost predicate AllForChunk(u: Url, history: Files, fetches: Fetches, parts: map<int, RangePart>) {
    forall i :: i in parts ==> ForChunk(u, history, fetches, parts[i], i)
  }

  // The length is known as soon as the object is one of this policy, and then the
  // indexes are those of the resolved range.
  ghost predicate Consistent(u: Url, spec: RangeSpec, policy: Policy, history: Files, fetches: Fetches, p: Progress) {
    (p.meta.Some? && p.meta.value.policyTag == policy.policyTag ==>
       p.totalLength > 0 && IsObjectKey(u.base, p.key) && p.meta.value.totalLength == |u.body| &&
       p.meta.value.chunkSize == u.chunkSize) &&
    (p.totalLength == 0 ||
     (p.totalLength == |u.body| && Resolve(spec, |u.body|).Some? && u.chunkSize > 0 &&
      p.indexes == ChunkIndexes(Resolve(spec, |u.body|).value, u.chunkSize))) &&
    AllForChunk(u, history, fetches, p.parts)
  }

  ghost predicate AllOnDisk(files: Files, parts: map<int, RangePart>) {
    forall i :: i in parts ==> parts[i].path in files
  }

  predicate Ascending(s: seq<int>) {
    forall i, j :: 0 <= i < j < |s| ==> s[i] < s[j]
  }

  // A correct 206, or a 416 for a range that selects nothing.
  ghost predicate Answers(u: Url, spec: RangeSpec, history: Files, result: RangeResult) {
    Correct206(u, spec, history, result) ||
    ((result == NotSatisfiable(Bypassed, |u.body|) || result == NotSatisfiable(Hit, |u.body|)) &&
     Resolve(spec, |u.body|).None?)
  }

  // What is sent is a prefix of the selected bytes, and all of them exactly if complete.
  ghost predicate SentSelection(u: Url, spec: RangeSpec, result: RangeResult, written: seq<Byte>, complete: bool) {
    var r := Resolve(spec, |u.body|);
    r.Some? && 0 <= r.value.start <= r.value.end < |u.body| &&
    var selected := u.body[r.value.start..r.value.end + 1];
    written <= selected && (complete <==> written == selected) && result.contentLength == |selected|
  }

  lemma AnswersNamesLength(u: Url, spec: RangeSpec, history: Files, result: RangeResult)
    requires Answers(u, spec, history, result) && 0 < |u.body|
    ensures result != NotSatisfiable(Bypassed, 0)
  {
    UnsatisfiableDiffers(|u.body|);
  }

  lemma IndexFits(index: nat, chunkSize: int)
    requires chunkSize > 0 && index * chunkSize <= MAX_INT64
    ensures index <= MAX_INT64
  {
    MulMonotone(1, chunkSize, index);
  }

  lemma PartsGrow(u: Url, history: Files, fetches: Fetches, history': Files, fetches': Fetches,
                  parts: map<int, RangePart>)
    requires Grows(history, history') && Learns(fetches, fetches')
    requires AllForChunk(u, history, fetches, parts)
    ensures AllForChunk(u, history', fetches', parts)
  {
  }

  lemma PartsSpared(u: Url, history: Files, fetches: Fetches, st: StoreState, st': StoreState,
                    parts: map<int, RangePart>, index: int)
    requires index !in parts && AllForChunk(u, history, fetches, parts)
    ensures Spares(st, st', fetches, index) && AllOnDisk(st.files, parts) ==> AllOnDisk(st'.files, parts)
  {
  }

  lemma FilesKept(files: Files, files': Files, parts: map<int, RangePart>)
    ensures Grows(files, files') && AllOnDisk(files, parts) ==> AllOnDisk(files', parts)
  {
  }

  lemma PartAdded(u: Url, history: Files, fetches: Fetches, files: Files, parts: map<int, RangePart>, index: int,
                  part: RangePart)
    requires ForChunk(u, history, fetches, part, index) && part.path in files
    requires AllForChunk(u, history, fetches, parts)
    ensures AllForChunk(u, history, fetches, parts[index := part])
    ensures parts[index := part].Keys == parts.Keys + {index}
    ensures AllOnDisk(files, parts) ==> AllOnDisk(files, parts[index := part])
  {
  }

  lemma PartialHeaderParses(h: Header, total: nat, r: Resolved)
    requires 0 <= r.start <= r.end < total <= MAX_INT64
    ensures ParseContentRange(Get(PartialHeader(h, total, r), "Content-Range")) ==
              Some(ContentRange(r.start, r.end, total))
  {
    hide SanitizeChunk, ContentRangeHeader, ParseContentRange;
    ContentRangeParses(r.start, r.end, total);
  }

  // One part inside the whole body answers the range.
  lemma WholeBodyAnswers(u: Url, spec: RangeSpec, history: Files, h: Header, part: RangePart, state: State)
    requires 0 < |u.body| <= MAX_INT64 && WellFormed(spec) && Resolve(spec, |u.body|).Some?
    requires if part.body != [] then part.body == u.body else Holds(history, part.path, u.body)
    requires var r := Resolve(spec, |u.body|).value;
             0 <= r.start <= r.end && part.offset == r.start && part.length == r.end - r.start + 1
    requires part.cleanupPath ==> part.path.Temp?
    ensures Correct206(u, spec, history, RangeResult(state, 206,
                                                     PartialHeader(h, |u.body|, Resolve(spec, |u.body|).value), [part],
                                                       part.length))
  {
    hide PartialHeader, ParseContentRange;
    ResolveMeetsRfc(spec, |u.body|);
    PartialHeaderParses(h, |u.body|, Resolve(spec, |u.body|).value);
    assert Contents(history, [part]) == Content(history, part) + Contents(history, []);
  }

  // The answer from a reply that carried the whole body.
  function WholeResult(spec: RangeSpec, meta: ChunkObject, part: RangePart): RangeResult
    requires meta.totalLength > 0 && WellFormed(spec)
  {
    ResolveMeetsRfc(spec, meta.totalLength);
    match Resolve(spec, meta.totalLength)
    case None => NotSatisfiable(Bypassed, meta.totalLength)
    case Some(r) => RangeResult(Miss, 206, PartialHeader(meta.header, meta.totalLength, r),
                                [part.(offset := r.start, length := r.end - r.start + 1)], r.end - r.start + 1)
  }

  lemma WholeResultAnswers(u: Url, spec: RangeSpec, history: Files, meta: ChunkObject, part: RangePart)
    requires 0 < |u.body| <= MAX_INT64 && WellFormed(spec) && meta.totalLength == |u.body| && part.body == [] &&
             part.path.Temp? && Holds(history, part.path, u.body)
    ensures Answers(u, spec, history, WholeResult(spec, meta, part)) &&
            WholeResult(spec, meta, part).state in {Miss, Bypassed}
    ensures forall i :: 0 <= i < |WholeResult(spec, meta, part).parts| ==>
              WholeResult(spec, meta, part).parts[i].path == part.path &&
              WholeResult(spec, meta, part).parts[i].body == []
  {
    hide PartialHeader, Correct206;
    ResolveMeetsRfc(spec, |u.body|);
    var r := Resolve(spec, |u.body|);
    if r.Some? {
      WholeBodyAnswers(u, spec, history, meta.header,
                       part.(offset := r.value.start, length := r.value.end - r.value.start + 1), Miss);
    }
  }

  // The answer from a full response the engine stored.
  function FullObjectResult(spec: RangeSpec, response: StoredResponse): RangeResult
    requires response.contentLength > 0 && WellFormed(spec)
  {
    ResolveMeetsRfc(spec, response.contentLength);
    match Resolve(spec, response.contentLength)
    case None => NotSatisfiable(Hit, response.contentLength)
    case Some(r) =>
      RangeResult(Hit, 206, PartialHeader(response.header, response.contentLength, r),
                  [RangePart(response.body, response.bodyPath, r.start, r.end - r.start + 1, false)],
                    r.end - r.start + 1)
  }

  lemma FullObjectAnswers(u: Url, spec: RangeSpec, history: Files, files: Files, response: StoredResponse)
    requires 0 < |u.body| <= MAX_INT64 && WellFormed(spec) && response.contentLength == |u.body|
    requires if response.body != [] then response.body == u.body
             else Holds(history, response.bodyPath, u.body) && response.bodyPath in files
    ensures Answers(u, spec, history, FullObjectResult(spec, response)) && FullObjectResult(spec, response).state == Hit
    ensures forall i :: 0 <= i < |FullObjectResult(spec, response).parts| ==>
              OnDisk(files, FullObjectResult(spec, response).parts[i])
  {
    hide PartialHeader, Correct206;
    ResolveMeetsRfc(spec, |u.body|);
    var r := Resolve(spec, |u.body|);
    if r.Some? {
      WholeBodyAnswers(u, spec, history, response.header,
                       RangePart(response.body, response.bodyPath, r.value.start, r.value.end - r.value.start + 1,
                                 false), Hit);
    }
  }

  // Parts that make up the resolved range answer it.
  lemma ChunkResultAnswers(u: Url, spec: RangeSpec, history: Files, meta: ChunkObject, parts: seq<RangePart>,
                           state: State)
    requires 0 < |u.body| <= MAX_INT64 && WellFormed(spec) && meta.totalLength == |u.body| &&
             Resolve(spec, |u.body|).Some?
    requires AllReadable(history, parts)
    requires var r := Resolve(spec, |u.body|).value;
             InBody(u.body, r) && Contents(history, parts) == u.body[r.start..r.end + 1]
    ensures Correct206(u, spec, history, ChunkResult(meta, parts, Resolve(spec, |u.body|).value, state))
  {
    hide PartialHeader, ParseContentRange;
    PartialHeaderParses(meta.header, meta.totalLength, Resolve(spec, |u.body|).value);
  }

  lemma IndexesFit(r: Resolved, chunkSize: int)
    requires chunkSize > 0 && 0 <= r.start <= r.end <= MAX_INT64
    ensures var indexes := ChunkIndexes(r, chunkSize);
            indexes != [] && Ascending(indexes) && forall i :: 0 <= i < |indexes| ==>
              0 <= indexes[i] && indexes[i] * chunkSize <= MAX_INT64
  {
    DivMonotone(r.start, r.end, chunkSize);
    forall index | r.start / chunkSize <= index <= r.end / chunkSize
      ensures index * chunkSize <= MAX_INT64
    {
      IndexBounds(r, index, chunkSize);
    }
  }

  // Puts the collected parts in order and cuts them to the range; none if one is missing.
  method OrderParts(parts: map<int, RangePart>, indexes: seq<int>, resolved: Resolved, chunkSize: int)
    returns (ordered: Option<seq<RangePart>>)
    ensures ordered.Some? <==> forall i :: 0 <= i < |indexes| ==> indexes[i] in parts
    ensures ordered.Some? ==>
              |ordered.value| == |indexes| &&
              forall i :: 0 <= i < |indexes| ==>
                ordered.value[i] == Sliced(parts[indexes[i]], resolved, indexes[i], chunkSize)
  {
    var result: seq<RangePart> := [];
    for n := 0 to |indexes|
      invariant forall i :: 0 <= i < n ==> indexes[i] in parts
      invariant |result| == n && forall i :: 0 <= i < n ==>
                  result[i] == Sliced(parts[indexes[i]], resolved, indexes[i], chunkSize)
    {
      if indexes[n] !in parts {
        return None;
      }
      result := result + [Sliced(parts[indexes[n]], resolved, indexes[n], chunkSize)];
    }
    ordered := Some(result);
  }

  // The ordered parts make up the range.
  lemma OrderedCover(u: Url, history: Files, fetches: Fetches, files: Files, parts: map<int, RangePart>,
                     ordered: seq<RangePart>, r: Resolved)
    requires u.chunkSize > 0 && InBody(u.body, r) && AllForChunk(u, history, fetches, parts)
    requires var indexes := ChunkIndexes(r, u.chunkSize);
             |ordered| == |indexes| && forall i :: 0 <= i < |indexes| ==>
               indexes[i] in parts && ordered[i] == Sliced(parts[indexes[i]], r, indexes[i], u.chunkSize)
    ensures AllReadable(history, ordered) && Contents(history, ordered) == u.body[r.start..r.end + 1]
    ensures AllOnDisk(files, parts) ==> forall i :: 0 <= i < |ordered| ==> OnDisk(files, ordered[i])
  {
    hide Contents, AllReadable;
    var indexes := ChunkIndexes(r, u.chunkSize);
    forall i | 0 <= i < |ordered|
      ensures SlicedAt(u, history, fetches, ordered[i], r, r.start / u.chunkSize + i)
    {
      assert ForChunk(u, history, fetches, parts[indexes[i]], indexes[i]);
    }
    PartsCoverRange(u, history, fetches, ordered, r);
  }

  // A record found after a lapse was there before it.
  lemma LapsedEntries(w: World, st: StoreState, key: string)
    ensures EntryAt(Lapse(w, st), key).Some? ==> EntryAt(st, key) == EntryAt(Lapse(w, st), key)
  {
  }

  const CONDITIONAL_HEADERS: set<string> := {"If-Match", "If-Modified-Since", "If-None-Match", "If-Range",
                                             "If-Unmodified-Since"}

  predicate SharedCacheSensitive(h: Header) {
    Get(h, "Authorization") != "" || |Values(h, "Cookie")| > 0
  }

  // The fields sent on for a request the range cache handles, and the range asked for.
  function PrepareRange(request: Request, policy: Policy): (r: Option<(Header, RangeSpec)>)
    ensures r.Some? ==> WellFormed(r.value.1) && Canonical(r.value.1) && policy.mode != Bypass && request.verb == "GET"
    ensures r.Some? ==> !SharedCacheSensitive(request.header) && Get(request.header, "If-Range") == ""
    ensures r.Some? ==> "Range" !in r.value.0 && forall name :: name in r.value.0 ==>
              name !in CONDITIONAL_HEADERS && name in request.header
  {
    if policy.mode == Bypass || request.verb != "GET" || SharedCacheSensitive(request.header) ||
    Get(request.header, "If-Range") != "" then None
    else
      match ParseSingleByteRange(Get(request.header, "Range"))
      case None => None
      case Some(spec) => Some((request.header - {"Cache-Control", "Pragma", "Range"} - CONDITIONAL_HEADERS, spec))
  }

  // Which requests the range cache takes on, by their fields: those with a range and no
  // condition on it, and with no credentials and no cookies. It sends on every field but
  // the range, the conditions and what would direct a cache, with its values as they are.
  lemma TakenIff(request: Request, policy: Policy)
    ensures var h, taken := request.header, PrepareRange(request, policy);
            (taken.Some? <==>
               policy.mode != Bypass && request.verb == "GET" && Get(h, "Authorization") == "" &&
               Values(h, "Cookie") == [] && Get(h, "If-Range") == "" &&
               ParseSingleByteRange(Get(h, "Range")).Some?) &&
            (taken.Some? ==>
               ParseSingleByteRange(Get(h, "Range")) == Some(taken.value.1) &&
               forall name :: Values(taken.value.0, name) ==
                 if name in {"Cache-Control", "Pragma", "Range", "If-Match", "If-Modified-Since", "If-None-Match",
                             "If-Range", "If-Unmodified-Since"} then [] else Values(h, name))
  {
    hide ParseSingleByteRange;
  }

  // The body files of the chunks under a prefix are gone.
  ghost predicate LosesBodies(st: StoreState, st': StoreState, prefix: string) {
    forall k :: k in st.records && HasPrefix(k, prefix) && BodyAt(st, k) != NoPath ==> BodyAt(st, k) !in st'.files
  }

  // Why steadiness is asked for: a version change deletes the chunks of the object, and
  // with them the body file of a part collected from one of them before.
  lemma VersionChangeLosesPart(w: World, st: StoreState, prefix: string)
    requires !Lapse(w, st).expired
    ensures LosesBodies(st, DeletePrefixState(w, st, prefix), prefix)
  {
    var st1 := Lapse(w, st);
    assert st1.records == st.records;
    forall k | k in st.records && HasPrefix(k, prefix) && BodyAt(st, k) != NoPath
      ensures BodyAt(st, k) !in DeletePrefixState(w, st, prefix).files
    {
      assert k in Matching(st1, prefix) && BodyAt(st1, k) == BodyAt(st, k);
    }
  }

  // What is lost stays lost while files only go, and so is what has a longer prefix.
  lemma LosesMore(st: StoreState, st1: StoreState, st': StoreState, prefix: string, longer: string)
    requires LosesBodies(st, st1, prefix) && HasPrefix(longer, prefix) && forall p :: p in st'.files ==> p in st1.files
    ensures LosesBodies(st, st', longer)
  {
    forall k | HasPrefix(k, longer)
      ensures HasPrefix(k, prefix)
    {
      PrefixTransitive(prefix, longer, k);
    }
  }

  lemma StaysLost(st: StoreState, st1: StoreState, st': StoreState, prefix: string)
    requires forall p :: p in st'.files ==> p in st1.files
    ensures LosesBodies(st, st1, prefix) ==> LosesBodies(st, st', prefix)
  {
  }

  lemma PutOnlyLosesFiles(w: World, st: StoreState, chunk: ChunkEntry)
    ensures forall p :: p in PutChunkState(w, st, chunk.key, chunk).files ==> p in st.files
  {
  }

  lemma SameRecordsLose(st: StoreState, st1: StoreState, st': StoreState, prefix: string)
    requires LosesBodies(st1, st', prefix) && st1.records == st.records
    ensures LosesBodies(st, st', prefix)
  {
  }

  lemma SameRecordsChange(st: StoreState, st1: StoreState, st': StoreState, meta: ChunkObject, prefix: string)
    requires st1.records == st.records
    ensures ChangesVersion(st1, meta) == ChangesVersion(st, meta)
    ensures LosesBodies(st1, st', prefix) == LosesBodies(st, st', prefix)
  {
  }

  // The object is stored in another version.
  ghost predicate ChangesVersion(st: StoreState, meta: ChunkObject) {
    var existing := ObjectAt(st, RangeObjectKey(meta.key));
    existing.Some? && ValidatorsOf(existing.value.header) != ValidatorsOf(meta.header)
  }

  // Deletions elsewhere keep the chunk records, and add no file.
  lemma DeletesOthers(w: World, st: StoreState, prefix: string, key: string)
    requires HasPrefix(prefix, "rmeta|") && HasPrefix(key, "rvary|")
    ensures forall p :: p in DeletePrefixState(w, st, prefix).files ==> p in st.files
    ensures !DeletePrefixState(w, st, prefix).expired ==>
              !st.expired &&
              forall k :: HasPrefix(k, "rchunk|") ==> Lookup(DeletePrefixState(w, st, prefix), k) == Lookup(st, k)
    ensures DeleteState(w, st, key).expired == st.expired && DeleteState(w, st, key).files == st.files &&
            forall k :: HasPrefix(k, "rchunk|") ==> Lookup(DeleteState(w, st, key), k) == Lookup(st, k)
  {
    OneKind(key);
    forall k | HasPrefix(k, "rchunk|")
      ensures !HasPrefix(k, prefix) && k != key
    {
      OneKind(k);
      if HasPrefix(k, prefix) { PrefixTransitive("rmeta|", prefix, k); }
    }
    if !DeletePrefixState(w, st, prefix).expired { assert Lapse(w, st).records == st.records; }
  }

  lemma DeletesFiles(w: World, st: StoreState, prefix: string)
    ensures forall p :: p in DeletePrefixState(w, st, prefix).files ==> p in st.files
    ensures !DeletePrefixState(w, st, prefix).expired ==> !Lapse(w, st).expired
  {
  }

  // Records that agree on the chunks lose the same bodies.
  lemma LosesSame(st: StoreState, st1: StoreState, st': StoreState, prefix: string)
    requires LosesBodies(st1, st', prefix) && HasPrefix(prefix, "rchunk|")
    requires forall k :: HasPrefix(k, "rchunk|") ==> Lookup(st1, k) == Lookup(st, k)
    ensures LosesBodies(st, st', prefix)
  {
    forall k | k in st.records && HasPrefix(k, prefix) && BodyAt(st, k) != NoPath
      ensures BodyAt(st, k) !in st'.files
    {
      PrefixTransitive("rchunk|", prefix, k);
      assert Lookup(st1, k) == Lookup(st, k);
      assert BodyAt(st1, k) == BodyAt(st, k);
    }
  }

  /** One process's range cache. The origin and the clock are oracles: any reply to the
      n-th request, any reading at the n-th look. */
  class RangeCache {
    const store: BadgerStore
    const chunkSize: int
    const digest: string -> string
    const parseTime: string -> Option<int>
    const parseDuration: string -> Option<int>
    const clock: nat -> int
    const origin: (nat, Query) -> FetchReply
    var ticks: nat
    var calls: nat
    ghost var fetches: Fetches
    ghost var asked: seq<Query>

    constructor (store: BadgerStore, chunkSize: int, digest: string -> string, parseTime: string -> Option<int>,
                 parseDuration: string -> Option<int>, clock: nat -> int, origin: (nat, Query) -> FetchReply)
      ensures this.store == store && this.chunkSize == chunkSize && this.digest == digest && this.parseTime == parseTime
      ensures this.parseDuration == parseDuration && this.clock == clock && this.origin == origin
      ensures ticks == 0 && calls == 0 && fetches == Fetches(map[], map[]) && asked == []
    {
      this.store, this.chunkSize, this.digest, this.parseTime := store, chunkSize, digest, parseTime;
      this.parseDuration, this.clock, this.origin := parseDuration, clock, origin;
      ticks, calls, fetches, asked := 0, 0, Fetches(map[], map[]), [];
    }

    ghost predicate Inv(u: Url)
      reads this, store
    {
      chunkSize > 0 && (MAX_INT64 + 1) % chunkSize == 0 && u.chunkSize == chunkSize && BarFree(parseDuration) &&
      |asked| == calls && LogHolds(asked, ticks, fetches.objects) &&
      Good(u, store.State(), fetches) && forall p :: p in fetches.bodies ==> p in store.history
    }

    // The fields an object was built from.
    ghost function FieldsOf(log: seq<Query>, d: Dating): Option<Header> {
      var reply := if d.call < |log| then origin(d.call, log[d.call]) else FetchFailed;
      match d
      case FromReply(_, _, _) => if reply.Reply? && reply.status == 206 then Some(reply.header) else None
      case FromRenewal(_, _, _, previous) => RenewalFields(previous, reply)
    }

    // The store decision it was built on.
    ghost function DecisionOf(log: seq<Query>, d: Dating): Decision {
      var fields := FieldsOf(log, d);
      if fields.None? then NO_STORE
      else if d.FromReply? then DecideChunkStore(parseTime, clock(d.tick), d.policy, 206, fields.value)
      else
        match DecideChunkMetadata(parseTime, clock(d.tick), d.policy, fields.value)
        case None => NO_STORE
        case Some(decision) => decision
    }

    // The reading its freshness counts from.
    function FreshFrom(d: Dating): int {
      if d.FromReply? then clock(d.tick + 1) else clock(d.tick + 2)
    }

    ghost function WindowsOf(log: seq<Query>, d: Dating): Windows {
      var fields := FieldsOf(log, d);
      var validators := fields.Some? && HasValidators(fields.value);
      if d.FromReply? then WindowsAt(clock(d.tick + 1), DecisionOf(log, d), validators)
      else BuildWindows(clock(d.tick + 1), clock(d.tick + 2), clock(d.tick + 3), clock(d.tick + 4), DecisionOf(log, d),
                        validators)
    }

    // The object was built for the URL under a valid rule's policy, from a reply to a
    // request for that URL or by renewing an object dated earlier, and its windows are
    // those of the decision taken then.
    ghost predicate Dated(log: seq<Query>, ticks: nat, objects: map<(string, ChunkObject), Dating>, base: string,
                          meta: ChunkObject, d: Dating) {
      d.call < |log| && log[d.call].base == base &&
      log[d.call].request.verb == (if d.FromReply? then "GET" else "HEAD") &&
      d.tick + (if d.FromReply? then 1 else 4) < ticks && RulePolicy(parseDuration, d.policy) &&
      meta.policyTag == d.policy.policyTag &&
      FieldsOf(log, d).Some? && DecisionOf(log, d).store && meta.header == SanitizeChunk(FieldsOf(log, d).value) &&
      meta.windows == WindowsOf(log, d) &&
      (d.FromRenewal? ==> (base, d.previous) in objects && objects[(base, d.previous)].tick < d.tick)
    }

    ghost predicate LogHolds(log: seq<Query>, ticks: nat, objects: map<(string, ChunkObject), Dating>) {
      forall base, meta :: (base, meta) in objects ==> Dated(log, ticks, objects, base, meta, objects[(base, meta)])
    }

    lemma DatedGrows(log: seq<Query>, ticks: nat, objects: map<(string, ChunkObject), Dating>, base: string,
                     meta: ChunkObject, d: Dating,
                     log': seq<Query>, ticks': nat, objects': map<(string, ChunkObject), Dating>)
      requires Dated(log, ticks, objects, base, meta, d) && log <= log' && ticks <= ticks' && Grows(objects, objects')
      ensures Dated(log', ticks', objects', base, meta, d)
    {
      hide DecideChunkStore, DecideChunkMetadata, HasValidators, SanitizeChunk, RulePolicy, RenewalFields, WindowsAt,
           BuildWindows;
      assert log'[d.call] == log[d.call];
    }

    lemma LogGrows(log: seq<Query>, ticks: nat, objects: map<(string, ChunkObject), Dating>, log': seq<Query>,
                   ticks': nat)
      requires LogHolds(log, ticks, objects) && log <= log' && ticks <= ticks'
      ensures LogHolds(log', ticks', objects)
    {
      hide Dated;
      forall base, meta | (base, meta) in objects
        ensures Dated(log', ticks', objects, base, meta, objects[(base, meta)])
      {
        DatedGrows(log, ticks, objects, base, meta, objects[(base, meta)], log', ticks', objects);
      }
    }

    lemma LogAdds(log: seq<Query>, ticks: nat, fetches: Fetches, base: string, meta: ChunkObject, d: Dating)
      requires LogHolds(log, ticks, fetches.objects) && Dated(log, ticks, fetches.objects, base, meta, d)
      ensures LogHolds(log, ticks, Registered(fetches, base, meta, d).objects)
    {
      hide Dated;
      var objects := Registered(fetches, base, meta, d).objects;
      forall base', meta' | (base', meta') in objects
        ensures Dated(log, ticks, objects, base', meta', objects[(base', meta')])
      {
        DatedGrows(log, ticks, fetches.objects, base', meta', objects[(base', meta')], log, ticks, objects);
      }
    }

    // What a stored object's windows mean: they are counted from the last store or
    // renewal, with the time to live decided then under the same policy settings.
    lemma ObjectWindows(log: seq<Query>, ticks: nat, objects: map<(string, ChunkObject), Dating>, base: string,
                        meta: ChunkObject, policy: Policy)
      requires LogHolds(log, ticks, objects) && BarFree(parseDuration) && RulePolicy(parseDuration, policy)
      requires (base, meta) in objects && meta.policyTag == policy.policyTag
      ensures var d := objects[(base, meta)];
              SameSettings(d.policy, policy) && DecisionOf(log, d).store &&
              meta.windows.freshUntil == FreshFrom(d) + DecisionOf(log, d).ttl
      ensures var d := objects[(base, meta)];
              WithinLimits(DecisionOf(log, d)) && clock(d.tick + 2) <= clock(d.tick + 3) <= clock(d.tick + 4) ==>
                meta.windows.staleUntil <= meta.windows.invalidAt
    {
      hide DecisionOf, FieldsOf, RulePolicy, BarFree, SameSettings, HasValidators, SanitizeChunk;
      assert Dated(log, ticks, objects, base, meta, objects[(base, meta)]);
      SameTagSameSettings(parseDuration, objects[(base, meta)].policy, policy);
    }

    ghost predicate HonestOrigin(u: Url) {
      forall n, request :: HonestReply(u.body, request, origin(n, Query(u.base, request)))
    }

    // The fields of the request for one chunk.
    function ChunkHeader(requestHeader: Header, index: nat): Header
      requires chunkSize > 0 && index * chunkSize >= 0
    {
      requestHeader["Range" := [RangeHeader(index * chunkSize, index * chunkSize + chunkSize - 1)]]["Accept-Encoding" :=
          ["identity"]]
    }

    // It asks for exactly that chunk, unencoded, and is otherwise the client's.
    lemma ChunkHeaderIs(h: Header, index: nat, name: string)
      requires chunkSize > 0 && index * chunkSize >= 0 && index * chunkSize + chunkSize - 1 <= MAX_INT64
      ensures var fields, first := ChunkHeader(h, index), index * chunkSize;
              ParseSingleByteRange(Get(fields, "Range")) ==
              Some(RangeSpec(first, first + chunkSize - 1, true, false, 0)) &&
              Values(fields, "Accept-Encoding") == ["identity"] &&
              (name !in {"Range", "Accept-Encoding"} ==> Values(fields, name) == Values(h, name))
    {
      hide ParseSingleByteRange;
      RangeHeaderParses(index * chunkSize, index * chunkSize + chunkSize - 1);
    }

    ghost function ChunkQuery(base: string, requestHeader: Header, index: nat): Query
      requires chunkSize > 0 && index * chunkSize >= 0
    {
      Query(base, Request("GET", ChunkHeader(requestHeader, index)))
    }

    // Nothing is asked but chunks of the given indexes, and no more often than there are
    // indexes.
    ghost predicate AsksChunks(log: seq<Query>, log': seq<Query>, base: string, requestHeader: Header,
                               indexes: seq<int>) {
      log <= log' && |log'| - |log| <= |indexes| && chunkSize > 0 &&
      forall n :: |log| <= n < |log'| ==> AsksOne(log'[n], base, requestHeader, indexes)
    }

    ghost predicate AsksOne(q: Query, base: string, requestHeader: Header, indexes: seq<int>) {
      exists i :: 0 <= i < |indexes| && AsksFor(q, base, requestHeader, indexes[i])
    }

    ghost predicate AsksFor(q: Query, base: string, requestHeader: Header, index: int) {
      index >= 0 && chunkSize > 0 && index * chunkSize >= 0 && q == ChunkQuery(base, requestHeader, index)
    }

    lemma AsksNext(log: seq<Query>, log1: seq<Query>, log': seq<Query>, base: string, requestHeader: Header,
                   indexes: seq<int>, n: nat)
      requires n < |indexes| && AsksChunks(log, log1, base, requestHeader, indexes[..n])
      requires indexes[n] >= 0 && indexes[n] * chunkSize >= 0
      requires log' == log1 || log' == log1 + [ChunkQuery(base, requestHeader, indexes[n])]
      ensures AsksChunks(log, log', base, requestHeader, indexes[..n + 1])
    {
      hide ChunkHeader;
      var next := indexes[..n + 1];
      forall m | |log| <= m < |log'|
        ensures AsksOne(log'[m], base, requestHeader, next)
      {
        if m < |log1| {
          assert AsksOne(log1[m], base, requestHeader, indexes[..n]);
          var i :| 0 <= i < |indexes[..n]| && AsksFor(log1[m], base, requestHeader, indexes[..n][i]);
          assert next[i] == indexes[..n][i];
        } else {
          assert AsksFor(log'[m], base, requestHeader, next[n]);
        }
      }
    }

    // The index has a chunk in the store that may be used: one of an object of this policy
    // that is still valid.
    ghost predicate HasStored(st: StoreState, policy: Policy, before: Progress, index: nat, now: int) {
      before.meta.Some? && before.meta.value.policyTag == policy.policyTag &&
      ChunkAt(Lapse(store.world, st), RangeChunkKey(before.key, index)).Some? &&
      now < before.meta.value.windows.invalidAt
    }

    ghost predicate Storable(policy: Policy, reply: FetchReply, now: int) {
      reply.Reply? && DecideChunkStore(parseTime, now, policy, 206, reply.header).store
    }

    lemma StorableAllowed(policy: Policy, reply: FetchReply, now: int)
      requires Storable(policy, reply, now)
      ensures reply.Reply? && !Directives.Forbids(policy, reply.header)
    {
      hide DecideChunkStore, Directives.Forbids;
      if Directives.Forbids(policy, reply.header) {
        Directives.ForbiddenIsRefused(parseTime, now, policy, 206, reply.header);
      }
    }

    // The decision on a partial reply, and the object built on it.
    ghost predicate DecidedFor(requestHeader: Header, policy: Policy, reply: FetchReply, now: int, later: int,
                               r: ChunkReply) {
      r.ChunkReply? && reply.Reply? &&
      var decided := DecideChunkStore(parseTime, now, policy, 206, reply.header);
      r.decision == decided.(vary := EffectiveVary(requestHeader, Some(reply.header), decided.vary)) &&
      r.meta.windows == WindowsAt(later, r.decision, HasValidators(reply.header))
    }

    lemma DecidedStorable(requestHeader: Header, policy: Policy, reply: FetchReply, now: int, later: int, r: ChunkReply)
      requires DecidedFor(requestHeader, policy, reply, now, later, r)
      ensures r.ChunkReply? && (r.decision.store <==> Storable(policy, reply, now))
    {
    }

    // Every request is answered, and for chunks of the body with a usable partial reply.
    ghost predicate WillingOrigin(u: Url, requestHeader: Header) {
      chunkSize > 0 && (forall n, request :: origin(n, Query(u.base, request)).Reply?) &&
      forall n, index: nat :: 0 <= index * chunkSize < |u.body| ==>
        Usable(origin(n, Query(u.base, Request("GET", ChunkHeader(requestHeader, index)))))
    }

    // Whatever the origin replies is steady.
    ghost predicate SteadyOrigin(base: string, requestHeader: Header, steady: Steady) {
      forall n, request :: origin(n, Query(base, request)).Reply? ==>
        SteadyReply(requestHeader, steady, request.verb, origin(n, Query(base, request)))
    }

    // The store holds no chunk of the URL, or agrees with the steady replies.
    ghost predicate Settled(u: Url, st: StoreState, requestHeader: Header, steady: Steady) {
      NoChunks(u.base, st) ||
      var key := StorageKey(digest, u.base, steady.names, requestHeader);
      Agrees(u, st, key, steady.validators, steady.names) &&
      var meta := ObjectAt(st, RangeObjectKey(key));
      (meta.Some? ==> SteadyStored(requestHeader, steady, meta.value.header))
    }

    lemma SettledSameMeta(u: Url, st: StoreState, st': StoreState, requestHeader: Header, steady: Steady)
      requires SameMeta(u, st, st') && (NoChunks(u.base, st) ==> NoChunks(u.base, st')) &&
               Settled(u, st, requestHeader, steady)
      ensures Settled(u, st', requestHeader, steady)
    {
      hide NoChunks, RangeObjectKey, RangeVaryKey, SteadyStored, StorageKey, ValidatorsOf;
    }

    // A renewal from steady fields leaves a settled store settled.
    lemma RenewalSettles(u: Url, st: StoreState, st': StoreState, requestHeader: Header, steady: Steady,
                         current: ChunkObject,
                         updated: ChunkObject, names: seq<string>)
      requires Settled(u, st, requestHeader, steady) && updated.key == StorageKey(digest, u.base, names, requestHeader)
      requires VaryAt(st, RangeVaryKey(u.base)) == OptionalNames(names) ==>
                 (NoChunks(u.base, st) ==> NoChunks(u.base, st')) &&
                 ObjectAt(st, RangeObjectKey(updated.key)) == Some(current)
      requires VaryAt(st, RangeVaryKey(u.base)) != OptionalNames(names) ==> NoChunks(u.base, st')
      requires ObjectAt(st', RangeObjectKey(updated.key)) == Some(updated) &&
               VaryAt(st', RangeVaryKey(u.base)) == OptionalNames(names)
      requires SteadyStored(requestHeader, steady, current.header) ==>
                 SteadyStored(requestHeader, steady, updated.header)
      ensures Settled(u, st', requestHeader, steady)
    {
      hide NoChunks, RangeObjectKey, RangeVaryKey, ParseVary, EffectiveVary, StorageKey;
    }

    // The fields a steady origin renews a steady object from are steady.
    lemma RenewsSteadily(base: string, n: nat, request: Request, requestHeader: Header, steady: Steady,
                         meta: ChunkObject)
      requires SteadyOrigin(base, requestHeader, steady) && request.verb == "HEAD" &&
               RenewalFields(meta, origin(n, Query(base, request))).Some?
      ensures SteadyStored(requestHeader, steady, meta.header) ==>
                SteadyStored(requestHeader, steady, SanitizeChunk(RenewalFields(meta,
                                                                                origin(n, Query(base, request))).value))
    {
      hide SteadyStored, MergeRevalidated, SanitizeChunk;
      var reply := origin(n, Query(base, request));
      SanitizeTwice(reply.header);
      assert SteadyReply(requestHeader, steady, request.verb, origin(n, Query(base, request)));
    }

    lemma SettledFacts(u: Url, st: StoreState, st': StoreState, requestHeader: Header, steady: Steady)
      ensures st'.records == st.records ==>
                Settled(u, st', requestHeader, steady) == Settled(u, st, requestHeader, steady)
    {
    }

    method Now() returns (t: int)
      modifies this`ticks
      ensures t == clock(old(ticks)) && ticks == old(ticks) + 1
      ensures old(LogHolds(asked, ticks, fetches.objects)) ==> LogHolds(asked, ticks, fetches.objects)
    {
      if LogHolds(asked, ticks, fetches.objects) { LogGrows(asked, ticks, fetches.objects, asked, ticks + 1); }
      t := clock(ticks);
      ticks := ticks + 1;
    }

    // A lookup reads the names first and a record next; records may lapse at both.
    ghost function AfterLookup(st: StoreState): StoreState {
      Lapse(store.world, Lapse(store.world, st))
    }

    ghost function StoredKey(st: StoreState, base: string, requestHeader: Header): string {
      LookupKey(digest, base, requestHeader, VaryAt(Lapse(store.world, st), RangeVaryKey(base)))
    }

    // The object a lookup finds.
    ghost function StoredObject(st: StoreState, base: string, requestHeader: Header): Option<ChunkObject> {
      ObjectAt(AfterLookup(st), RangeObjectKey(StoredKey(st, base, requestHeader)))
    }

    // The engine's entry a lookup finds.
    ghost function FullEntry(st: StoreState, base: string, requestHeader: Header): Option<Entry> {
      EntryAt(AfterLookup(st), LookupKey(digest, base, requestHeader, VaryAt(Lapse(store.world, st), VaryKey(base))))
    }

    method LookupChunkObject(ghost u: Url, base: string, requestHeader: Header)
      returns (key: string, meta: Option<ChunkObject>)
      requires Inv(u) && base == u.base
      modifies store
      ensures Inv(u) && Evolves(u.base, old(store.State()), store.State()) && store.files == old(store.files)
      ensures IsObjectKey(u.base, key) && meta == ObjectAt(store.State(), RangeObjectKey(key))
      ensures meta.Some? ==> ObjectOk(u, RangeObjectKey(key), meta.value)
      ensures store.State() == AfterLookup(old(store.State())) &&
              key == StoredKey(old(store.State()), base, requestHeader)
      ensures meta.Some? ==> (base, meta.value) in fetches.objects
      ensures !store.expired ==> store.records == old(store.records) &&
                                 key == LookupKey(digest, u.base, requestHeader,
                                                  VaryAt(store.State(), RangeVaryKey(u.base)))
    {
      hide LogHolds, BarFree, Good, Evolves, Lapse, LookupKey, StorageKey, RangeVaryKey;
      ghost var st0 := store.State();
      LapseGood(store.world, u, st0, fetches);
      var spec := store.GetVary(RangeVaryKey(base));
      ghost var st1 := store.State();
      key := LookupKey(digest, base, requestHeader, spec);
      KeysAreObjectKeys(digest, base, [], requestHeader, spec);
      LapseGood(store.world, u, st1, fetches);
      meta := store.GetChunkObject(RangeObjectKey(key));
      EvolvesTransitive(u.base, st0, st1, store.State());
      if meta.Some? {
        ObjectFacts(u, store.State(), fetches, key);
      }
    }

    method PurgeRangeStorage(ghost u: Url, base: string)
      requires base == u.base && chunkSize == u.chunkSize && Safe(u, store.State(), fetches)
      modifies store
      ensures Good(u, store.State(), fetches) && Evolves(u.base, old(store.State()), store.State())
      ensures store.history == old(store.history) && Gentle(base, old(store.State()), store.State())
      ensures forall k :: k in store.records ==> k in old(store.records) && !RangeOwned(u.base, k)
      ensures !store.expired ==>
                LosesBodies(old(store.State()), store.State(), RangeChunkPrefix(ResponseKey(base)))
    {
      hide LogHolds, BarFree, Safe, Good, Evolves, Gentle, DeletePrefixState, DeleteState, RangeVaryKey,
           RangeObjectKey, RangeChunkPrefix, VariantPrefix, LosesBodies;
      forall k
        ensures HasPrefix(k, RangeObjectKey(ResponseKey(base))) ==> RangeOwned(base, k)
        ensures HasPrefix(k, RangeChunkPrefix(ResponseKey(base))) ==> RangeOwned(base, k)
        ensures HasPrefix(k, "rmeta|" + VariantPrefix(base)) ==> RangeOwned(base, k)
        ensures HasPrefix(k, "rchunk|" + VariantPrefix(base)) ==> RangeOwned(base, k)
      {
        OwnedPrefixes(base, k);
      }
      ghost var st0 := store.State();
      DeleteVarySafe(store.world, u, st0, fetches);
      store.Delete(RangeVaryKey(base));
      ghost var st1 := store.State();
      DeleteOwnedSafe(store.world, u, st1, fetches, RangeObjectKey(ResponseKey(base)));
      var _ := store.DeletePrefix(RangeObjectKey(ResponseKey(base)));
      ghost var st2 := store.State();
      EvolvesTransitive(base, st0, st1, st2);
      GentleTransitive(base, st0, st1, st2);
      DeleteOwnedSafe(store.world, u, st2, fetches, RangeChunkPrefix(ResponseKey(base)));
      var _ := store.DeletePrefix(RangeChunkPrefix(ResponseKey(base)));
      ghost var st3 := store.State();
      EvolvesTransitive(base, st0, st2, st3);
      GentleTransitive(base, st0, st2, st3);
      DeleteOwnedSafe(store.world, u, st3, fetches, "rmeta|" + VariantPrefix(base));
      var _ := store.DeletePrefix("rmeta|" + VariantPrefix(base));
      ghost var st4 := store.State();
      EvolvesTransitive(base, st0, st3, st4);
      GentleTransitive(base, st0, st3, st4);
      DeleteOwnedSafe(store.world, u, st4, fetches, "rchunk|" + VariantPrefix(base));
      var _ := store.DeletePrefix("rchunk|" + VariantPrefix(base));
      EvolvesTransitive(base, st0, st4, store.State());
      GentleTransitive(base, st0, st4, store.State());
      PurgedGood(u, store.State(), fetches);
      PurgeLosesBodies(base, st0, st1, st2, st3, st4, store.State());
    }

    lemma PurgeLosesBodies(base: string, st0: StoreState, st1: StoreState, st2: StoreState, st3: StoreState,
                           st4: StoreState, st5: StoreState)
      requires var w := store.world;
               st1 == DeleteState(w, st0, RangeVaryKey(base)) &&
               st2 == DeletePrefixState(w, st1, RangeObjectKey(ResponseKey(base))) &&
               st3 == DeletePrefixState(w, st2, RangeChunkPrefix(ResponseKey(base))) &&
               st4 == DeletePrefixState(w, st3, "rmeta|" + VariantPrefix(base)) &&
               st5 == DeletePrefixState(w, st4, "rchunk|" + VariantPrefix(base))
      ensures !st5.expired ==> LosesBodies(st0, st5, RangeChunkPrefix(ResponseKey(base)))
    {
      hide DeletePrefixState, DeleteState, LosesBodies, VariantPrefix, Lookup;
      var w, prefix := store.world, RangeChunkPrefix(ResponseKey(base));
      assert HasPrefix(RangeObjectKey(ResponseKey(base)), "rmeta|") && HasPrefix(RangeVaryKey(base), "rvary|");
      assert HasPrefix(prefix, "rchunk|") && HasPrefix("rmeta|" + VariantPrefix(base), "rmeta|");
      DeletesOthers(w, st0, RangeObjectKey(ResponseKey(base)), RangeVaryKey(base));
      DeletesOthers(w, st1, RangeObjectKey(ResponseKey(base)), RangeVaryKey(base));
      DeletesOthers(w, st3, "rmeta|" + VariantPrefix(base), RangeVaryKey(base));
      DeletesFiles(w, st2, prefix);
      DeletesFiles(w, st4, "rchunk|" + VariantPrefix(base));
      LapsesOnce(w, st4, "rchunk|" + VariantPrefix(base));
      if !st5.expired {
        LapsesOnce(w, st2, prefix);
        VersionChangeLosesPart(w, st2, prefix);
        LosesMore(st2, st3, st5, prefix, prefix);
        LosesSame(st0, st2, st5, prefix);
      }
    }

    lemma LapsesOnce(w: World, st: StoreState, prefix: string)
      ensures DeletePrefixState(w, st, prefix).expired == Lapse(w, st).expired
      ensures st.expired ==> Lapse(w, st).expired
    {
    }

    // Records the Vary names of a response, dropping all range records of the URL if
    // the stored names differ.
    method PrepareVary(ghost u: Url, base: string, names: seq<string>)
      requires chunkSize == u.chunkSize && Good(u, store.State(), fetches) && base == u.base
      modifies store
      ensures Good(u, store.State(), fetches) && Evolves(base, old(store.State()), store.State()) &&
              store.history == old(store.history)
      ensures Gentle(base, old(store.State()), store.State())
      ensures !store.expired ==> !old(store.expired) &&
                                 VaryAt(store.State(), RangeVaryKey(base)) == OptionalNames(names)
      ensures !store.expired && VaryAt(old(store.State()), RangeVaryKey(base)) != OptionalNames(names) ==>
                NoChunks(base, store.State()) && NoObjects(base, store.State()) &&
                LosesBodies(old(store.State()), store.State(), RangeChunkPrefix(ResponseKey(base)))
      ensures !store.expired && VaryAt(old(store.State()), RangeVaryKey(base)) == OptionalNames(names) ==>
                store.files == old(store.files) && SameButNames(base, old(store.State()), store.State())
    {
      hide LogHolds, BarFree, Good, Evolves, Gentle, Lapse, NoChunks, Loose, PutVaryState, RangeVaryKey,
           RangeObjectKey, LosesBodies, RangeChunkPrefix, NoObjects, SameButNames;
      ghost var st0 := store.State();
      LapseGood(store.world, u, st0, fetches);
      LapseGentle(store.world, base, st0);
      var spec := store.GetVary(RangeVaryKey(base));
      ghost var st1 := store.State();
      if !st1.expired { VaryNotEmpty(u, st1, fetches); }
      if (spec.Some? && spec.value != names) || (spec.None? && names != []) {
        GoodFacts(u, st1, fetches);
        PurgeRangeStorage(u, base);
        PurgedFacts(base, store.State());
        EvolvesFacts(base, st1, store.State());
        EvolvesTransitive(base, st0, st1, store.State());
        GentleTransitive(base, st0, st1, store.State());
        NothingOwned(base, store.State());
        if !store.expired { LapsedLosesBodies(base, st0, store.State()); }
      }
      ghost var st2 := store.State();
      NamesChange(base, st0, st2, names);
      if names != [] {
        PutVaryGood(u, st2, fetches, names);
        PutVaryGentle(base, st2, names);
        store.PutVary(RangeVaryKey(base), names);
        EvolvesTransitive(base, st0, st2, store.State());
        GentleTransitive(base, st0, st2, store.State());
        if NoChunks(base, st2) { GentleFacts(base, st2, store.State()); }
      }
    }

    // No metadata of the URL's range objects is left.
    ghost predicate NoObjects(base: string, st: StoreState) {
      forall k :: IsObjectKey(base, k) ==> RangeObjectKey(k) !in st.records
    }

    // Chunks and objects are as they were.
    ghost predicate SameButNames(base: string, st: StoreState, st': StoreState) {
      forall k :: k != RangeVaryKey(base) ==> Lookup(st', k) == Lookup(st, k)
    }

    lemma NothingOwned(base: string, st: StoreState)
      requires forall k :: k in st.records ==> !RangeOwned(base, k)
      ensures NoObjects(base, st)
    {
      forall k | IsObjectKey(base, k)
        ensures RangeOwned(base, RangeObjectKey(k))
      {
        OwnedKeys(base, k, 0);
      }
    }

    lemma LapsedLosesBodies(base: string, st: StoreState, st': StoreState)
      requires LosesBodies(Lapse(store.world, st), st', RangeChunkPrefix(ResponseKey(base)))
      requires !Lapse(store.world, st).expired
      ensures LosesBodies(st, st', RangeChunkPrefix(ResponseKey(base)))
    {
      assert HasPrefix(RangeChunkPrefix(ResponseKey(base)), "rchunk|");
      assert Lapse(store.world, st).records == st.records;
      LosesSame(st, Lapse(store.world, st), st', RangeChunkPrefix(ResponseKey(base)));
    }

    lemma SameObject(base: string, st: StoreState, st': StoreState, key: string)
      requires SameButNames(base, st, st')
      ensures ObjectAt(st', RangeObjectKey(key)) == ObjectAt(st, RangeObjectKey(key))
    {
      assert RangeObjectKey(key)[1] == 'm' && RangeVaryKey(base)[1] == 'v';
    }

    // Writing the names leaves everything else.
    lemma NamesChange(base: string, st: StoreState, st1: StoreState, names: seq<string>)
      ensures var st' := PutVaryState(st1, RangeVaryKey(base), names);
              (st1.records == st.records ==> SameButNames(base, st, st1) && SameButNames(base, st, st')) &&
              (NoObjects(base, st1) ==> NoObjects(base, st')) && st'.files == st1.files
      ensures forall prefix :: LosesBodies(st, st1, prefix) ==>
                                 LosesBodies(st, PutVaryState(st1, RangeVaryKey(base), names), prefix)
    {
      forall k | IsObjectKey(base, k)
        ensures RangeObjectKey(k) != RangeVaryKey(base)
      {
        assert RangeObjectKey(k)[1] == 'm' && RangeVaryKey(base)[1] == 'v';
      }
    }

    // Writes the object's metadata, first dropping what the new version or the new
    // Vary names make unusable.
    method StoreChunkObject(ghost u: Url, base: string, meta: ChunkObject, names: seq<string>,
                            existing: Option<ChunkObject>)
      requires Inv(u) && base == u.base && IsObjectKey(base, meta.key) && ObjectOk(u, RangeObjectKey(meta.key), meta)
      requires (base, meta) in fetches.objects
      requires !store.expired && VaryAt(store.State(), RangeVaryKey(base)) == OptionalNames(names) ==>
                 existing == ObjectAt(store.State(), RangeObjectKey(meta.key))
      modifies store
      ensures Inv(u) && Evolves(base, old(store.State()), store.State()) && store.history == old(store.history)
      ensures Gentle(base, old(store.State()), store.State())
      ensures !store.expired ==> !old(store.expired) &&
                                 ObjectAt(store.State(), RangeObjectKey(meta.key)) == Some(meta) &&
                                 VaryAt(store.State(), RangeVaryKey(base)) == OptionalNames(names)
      ensures !store.expired && VaryAt(old(store.State()), RangeVaryKey(base)) != OptionalNames(names) ==>
                NoChunks(base, store.State()) && NoOtherObjects(base, store.State(), meta.key)
      ensures !store.expired && Agrees(u, old(store.State()), meta.key, ValidatorsOf(meta.header), names) ==>
                store.files == old(store.files)
      ensures !store.expired && ReplacesVersion(base, old(store.State()), meta, names, existing) ==>
                LosesBodies(old(store.State()), store.State(), RangeChunkPrefix(meta.key))
    {
      hide LogHolds, BarFree, Good, Evolves, Gentle, NoChunks, Loose, PutObjectState, DeletePrefixState, ObjectOk,
           ChunksOfVersion, ValidatorsOf, RangeVaryKey, RangeObjectKey, RangeChunkPrefix, OptionalNames, LosesBodies,
           NoObjects, NoOtherObjects, SameButNames;
      ghost var st0, validators := store.State(), ValidatorsOf(meta.header);
      OwnedKeys(base, meta.key, 0);
      PrepareVary(u, base, names);
      ghost var st1 := store.State();
      if SameButNames(base, st0, st1) { SameObject(base, st0, st1, meta.key); }
      if existing.Some? && ValidatorsOf(existing.value.header) != ValidatorsOf(meta.header) {
        DeleteChunksGood(store.world, u, st1, fetches, RangeChunkPrefix(meta.key));
        var _ := store.DeletePrefix(RangeChunkPrefix(meta.key));
        VersionAfterDelete(u, store.State(), fetches, meta.key, validators);
        EvolvesTransitive(base, st0, st1, store.State());
        GentleTransitive(base, st0, st1, store.State());
        GentleFacts(base, st1, store.State());
      } else if !st1.expired {
        if NoChunks(base, st1) {
          NoChunksOfVersion(u, st1, fetches, meta.key, validators);
        } else {
          VersionFromExisting(u, st1, fetches, meta.key);
        }
      }
      ghost var st2 := store.State();
      PutObjectGood(store.world, u, st2, fetches, meta);
      PutObjectGentle(store.world, base, st2, RangeObjectKey(meta.key), meta);
      store.PutChunkObject(RangeObjectKey(meta.key), meta);
      EvolvesTransitive(base, st0, st2, store.State());
      GentleTransitive(base, st0, st2, store.State());
      GentleFacts(base, st2, store.State());
      if !store.expired { OtherVersionGoes(base, st0, st1, st2, meta, names, existing); }
    }

    // The only metadata left of the URL is the object's.
    ghost predicate NoOtherObjects(base: string, st: StoreState, key: string) {
      forall k :: IsObjectKey(base, k) && k != key ==> RangeObjectKey(k) !in st.records
    }

    // No chunk of the URL is left, and no metadata but the object's.
    ghost predicate NothingElse(base: string, st: StoreState, key: string) {
      NoChunks(base, st) && NoOtherObjects(base, st, key)
    }

    // Other names than the stored ones, or another version than the existing one.
    ghost predicate ReplacesVersion(base: string, st: StoreState, meta: ChunkObject, names: seq<string>,
                                    existing: Option<ChunkObject>) {
      VaryAt(st, RangeVaryKey(base)) != OptionalNames(names) ||
      (existing.Some? && ValidatorsOf(existing.value.header) != ValidatorsOf(meta.header))
    }

    // What storing an object takes of the other version, step by step.
    lemma OtherVersionGoes(base: string, st0: StoreState, st1: StoreState, st2: StoreState, meta: ChunkObject,
                           names: seq<string>, existing: Option<ChunkObject>)
      requires IsObjectKey(base, meta.key)
      requires var differs := existing.Some? && ValidatorsOf(existing.value.header) != ValidatorsOf(meta.header);
               st2 == if differs then DeletePrefixState(store.world, st1, RangeChunkPrefix(meta.key)) else st1
      requires !PutObjectState(store.world, st2, RangeObjectKey(meta.key), meta).expired
      requires if VaryAt(st0, RangeVaryKey(base)) != OptionalNames(names)
               then !st1.expired ==> NoObjects(base, st1) && LosesBodies(st0, st1, RangeChunkPrefix(ResponseKey(base)))
               else !st1.expired ==> SameButNames(base, st0, st1)
      ensures var st' := PutObjectState(store.world, st2, RangeObjectKey(meta.key), meta);
              (ReplacesVersion(base, st0, meta, names, existing) ==>
                 LosesBodies(st0, st', RangeChunkPrefix(meta.key))) &&
              (VaryAt(st0, RangeVaryKey(base)) != OptionalNames(names) ==> NoOtherObjects(base, st', meta.key))
    {
      hide DeletePrefixState, LosesBodies, OptionalNames, ValidatorsOf, Lookup, RangeVaryKey, IsObjectKey;
      var w, prefix := store.world, RangeChunkPrefix(meta.key);
      var st' := PutObjectState(w, st2, RangeObjectKey(meta.key), meta);
      OwnedKeys(base, meta.key, 0);
      DeletesFiles(w, st1, prefix);
      LapsesOnce(w, st1, prefix);
      assert st'.files == st2.files;
      if VaryAt(st0, RangeVaryKey(base)) != OptionalNames(names) {
        LosesMore(st0, st1, st', RangeChunkPrefix(ResponseKey(base)), prefix);
        ObjectsOnlyGo(w, base, st1, prefix, meta);
      } else if st2 != st1 || (existing.Some? && ValidatorsOf(existing.value.header) != ValidatorsOf(meta.header)) {
        VersionChangeLosesPart(w, st1, prefix);
        RangeVaryKind(base);
        assert forall k :: HasPrefix(k, "rchunk|") ==> Lookup(st1, k) == Lookup(st0, k) by { NamesAreNoChunks(base); }
        LosesMore(st1, st2, st', prefix, prefix);
        LosesSame(st0, st1, st', prefix);
      }
    }

    lemma RangeVaryKind(base: string)
      ensures HasPrefix(RangeVaryKey(base), "rvary|")
    {
    }

    lemma NamesAreNoChunks(base: string)
      ensures forall k :: HasPrefix(k, "rchunk|") ==> k != RangeVaryKey(base)
    {
      forall k | HasPrefix(k, "rchunk|")
        ensures k != RangeVaryKey(base)
      {
        assert k[1] == 'c' && RangeVaryKey(base)[1] == 'v';
      }
    }

    lemma ObjectsOnlyGo(w: World, base: string, st: StoreState, prefix: string, meta: ChunkObject)
      requires NoObjects(base, st)
      ensures NoOtherObjects(base, PutObjectState(w, st, RangeObjectKey(meta.key), meta), meta.key)
      ensures NoOtherObjects(base, PutObjectState(w, DeletePrefixState(w, st, prefix), RangeObjectKey(meta.key), meta),
                             meta.key)
    {
      hide IsObjectKey;
      forall k | k != meta.key
        ensures RangeObjectKey(k) != RangeObjectKey(meta.key)
      {
        ObjectKeyParts(k, meta.key);
      }
    }

    // Renews the object's metadata from validation fields. A refused renewal drops the
    // URL's range records and still answers, with the zero object.
    method RenewChunkObject(ghost u: Url, base: string, requestHeader: Header, policy: Policy, currentKey: string,
                            current: ChunkObject,
                            header: Header, baseAge: nat, ghost steady: Steady)
      returns (updated: ChunkObject, updatedKey: string, sameVersion: bool)
      requires Inv(u) && base == u.base && ObjectOk(u, RangeObjectKey(currentKey), current) &&
               RulePolicy(parseDuration, policy)
      requires (base, current) in fetches.objects && Answered(asked, base, current, header)
      requires IsStoredAt(store.State(), base, requestHeader, currentKey, current)
      modifies store, this`ticks, this`fetches
      ensures Inv(u) && Evolves(base, old(store.State()), store.State()) && store.history == old(store.history) &&
              Learns(old(fetches), fetches)
      ensures ticks > old(ticks)
      ensures var decision := DecideChunkMetadata(parseTime, clock(old(ticks)), policy, header);
              if decision.None? then updated == ZERO_OBJECT && updatedKey == "" && !sameVersion &&
                                     NoChunks(base, store.State())
              else
                var names := EffectiveVary(requestHeader, Some(header), decision.value.vary);
                updatedKey == StorageKey(digest, base, names, requestHeader) == updated.key &&
                IsObjectKey(base, updatedKey) &&
                ObjectOk(u, RangeObjectKey(updatedKey), updated) && updated.header == SanitizeChunk(header) &&
                updated.policyTag == policy.policyTag && updated.siteId == policy.siteId &&
                updated.ruleId == policy.ruleId && updated.baseAge == baseAge &&
                updated.windows == BuildWindows(clock(old(ticks) + 1), clock(old(ticks) + 2), clock(old(ticks) + 3),
                                                clock(old(ticks) + 4),
                                                decision.value, HasValidators(header)) &&
                (base, updated) in fetches.objects &&
                (sameVersion <==> currentKey == updatedKey &&
                                  ValidatorsOf(current.header) == ValidatorsOf(updated.header)) &&
                (!store.expired ==>
                   ObjectAt(store.State(), RangeObjectKey(updatedKey)) == Some(updated) &&
                   updatedKey == LookupKey(digest, base, requestHeader, VaryAt(store.State(), RangeVaryKey(base))) &&
                   (updatedKey == currentKey || NothingElse(base, store.State(), updatedKey)))
      ensures !store.expired && Settled(u, old(store.State()), requestHeader, steady) &&
              (SteadyStored(requestHeader, steady, current.header) ==>
                 SteadyStored(requestHeader, steady, SanitizeChunk(header))) ==>
                Settled(u, store.State(), requestHeader, steady)
    {
      hide LogHolds, BarFree, Good, Evolves, Gentle, NoChunks, LookupKey, StorageKey, EffectiveVary,
           DecideChunkMetadata, BuildWindows, SanitizeChunk, HasValidators, ValidatorsOf, RangeVaryKey, Loose, Settled,
           SteadyStored, Answered, RulePolicy, Registered;
      ghost var st0 := store.State();
      ghost var tick := ticks;
      DatedEarlier(asked, ticks, fetches.objects, base, current);
      var decidedAt := Now();
      var decided := DecideChunkMetadata(parseTime, decidedAt, policy, header);
      if decided.None? {
        GoodFacts(u, store.State(), fetches);
        PurgeRangeStorage(u, base);
        PurgedFacts(base, store.State());
        NoChunksSettled(u, store.State(), requestHeader, steady);
        return ZERO_OBJECT, "", false;
      }
      updated := RenewDecided(u, base, requestHeader, policy, currentKey, current, header, baseAge, decided.value,
                              steady);
      updatedKey := updated.key;
      sameVersion := currentKey == updatedKey && ValidatorsOf(current.header) == ValidatorsOf(updated.header);
    }

    // Builds and stores the object of a renewal that has just been granted.
    method RenewDecided(ghost u: Url, base: string, requestHeader: Header, policy: Policy, ghost currentKey: string,
                        current: ChunkObject,
                        header: Header, baseAge: nat, decision: Decision, ghost steady: Steady)
      returns (updated: ChunkObject)
      requires Inv(u) && base == u.base && ObjectOk(u, RangeObjectKey(currentKey), current) &&
               RulePolicy(parseDuration, policy)
      requires (base, current) in fetches.objects && Answered(asked, base, current, header)
      requires ticks > 0 && fetches.objects[(base, current)].tick < ticks - 1
      requires DecideChunkMetadata(parseTime, clock(ticks - 1), policy, header) == Some(decision)
      requires IsStoredAt(store.State(), base, requestHeader, currentKey, current)
      modifies store, this`ticks, this`fetches
      ensures Inv(u) && Evolves(base, old(store.State()), store.State()) && store.history == old(store.history) &&
              Learns(old(fetches), fetches)
      ensures ticks > old(ticks)
      ensures updated.key == StorageKey(digest, base, EffectiveVary(requestHeader, Some(header), decision.vary),
                                        requestHeader) && IsObjectKey(base, updated.key)
      ensures ObjectOk(u, RangeObjectKey(updated.key), updated) && updated.header == SanitizeChunk(header) &&
              updated.policyTag == policy.policyTag && updated.siteId == policy.siteId &&
              updated.ruleId == policy.ruleId && updated.baseAge == baseAge
      ensures updated.windows == BuildWindows(clock(old(ticks)), clock(old(ticks) + 1), clock(old(ticks) + 2),
                                              clock(old(ticks) + 3),
                                              decision, HasValidators(header))
      ensures (base, updated) in fetches.objects
      ensures !store.expired ==>
                ObjectAt(store.State(), RangeObjectKey(updated.key)) == Some(updated) &&
                updated.key == LookupKey(digest, base, requestHeader, VaryAt(store.State(), RangeVaryKey(base))) &&
                (updated.key == currentKey || NothingElse(base, store.State(), updated.key))
      ensures !store.expired && Settled(u, old(store.State()), requestHeader, steady) &&
              (SteadyStored(requestHeader, steady, current.header) ==>
                 SteadyStored(requestHeader, steady, SanitizeChunk(header))) ==>
                Settled(u, store.State(), requestHeader, steady)
    {
      hide LogHolds, BarFree, Good, Evolves, Gentle, NoChunks, LookupKey, StorageKey, EffectiveVary,
           DecideChunkMetadata, BuildWindows, SanitizeChunk, HasValidators, ValidatorsOf, RangeVaryKey, Loose, Settled,
           SteadyStored, Answered, RulePolicy, Registered, IsObjectKey, IsStoredAt, DecisionOf, FieldsOf;
      ghost var st0, tick := store.State(), ticks - 1;
      var key := StorageKey(digest, base, EffectiveVary(requestHeader, Some(header), decision.vary), requestHeader);
      KeysAreObjectKeys(digest, base, EffectiveVary(requestHeader, Some(header), decision.vary), requestHeader, None);
      var windows := RenewedWindows(decision, HasValidators(header));
      updated := ChunkObject(key, policy.siteId, policy.ruleId, policy.policyTag, windows, baseAge,
                             SanitizeChunk(header),
                             current.totalLength, current.chunkSize);
      RegisterRenewal(asked, ticks, fetches, base, current, updated, header, policy, tick);
      AnsweredFacts(asked, base, current, header);
      ghost var dating := FromRenewal(policy, |asked| - 1, tick, current);
      RegisteredLearns(u, st0, fetches, updated, dating);
      fetches := Registered(fetches, base, updated, dating);
      StoreRenewed(u, base, requestHeader, decision.vary, header, currentKey, current, updated, steady);
    }

    // The windows of a renewal, built from four clock readings.
    method RenewedWindows(decision: Decision, validators: bool) returns (windows: Windows)
      modifies this`ticks
      ensures ticks == old(ticks) + 4
      ensures windows == BuildWindows(clock(old(ticks)), clock(old(ticks) + 1), clock(old(ticks) + 2),
                                      clock(old(ticks) + 3), decision, validators)
      ensures old(LogHolds(asked, ticks, fetches.objects)) ==> LogHolds(asked, ticks, fetches.objects)
    {
      hide LogHolds, BuildWindows;
      var storedAt := Now();
      var freshFrom := Now();
      var staleFrom := Now();
      var invalidFrom := Now();
      windows := BuildWindows(storedAt, freshFrom, staleFrom, invalidFrom, decision, validators);
    }

    // Stores a renewed object under the names of the fields it was renewed from.
    method StoreRenewed(ghost u: Url, base: string, requestHeader: Header, vary: seq<string>, header: Header,
                        ghost currentKey: string,
                        current: ChunkObject, updated: ChunkObject, ghost steady: Steady)
      requires Inv(u) && base == u.base && IsObjectKey(base, updated.key) &&
               ObjectOk(u, RangeObjectKey(updated.key), updated)
      requires (base, updated) in fetches.objects && updated.header == SanitizeChunk(header)
      requires updated.key == StorageKey(digest, base, EffectiveVary(requestHeader, Some(header), vary), requestHeader)
      requires IsStoredAt(store.State(), base, requestHeader, currentKey, current)
      modifies store
      ensures Inv(u) && Evolves(base, old(store.State()), store.State()) && store.history == old(store.history)
      ensures !store.expired ==>
                ObjectAt(store.State(), RangeObjectKey(updated.key)) == Some(updated) &&
                updated.key == LookupKey(digest, base, requestHeader, VaryAt(store.State(), RangeVaryKey(base))) &&
                (updated.key == currentKey || NothingElse(base, store.State(), updated.key))
      ensures !store.expired && Settled(u, old(store.State()), requestHeader, steady) &&
              (SteadyStored(requestHeader, steady, current.header) ==>
                 SteadyStored(requestHeader, steady, updated.header)) ==>
                Settled(u, store.State(), requestHeader, steady)
    {
      hide LogHolds, BarFree, Good, Evolves, Gentle, NoChunks, LookupKey, StorageKey, EffectiveVary, SanitizeChunk,
           ValidatorsOf, RangeVaryKey, Loose, Settled, SteadyStored, ObjectOk, IsObjectKey, OptionalNames, Agrees;
      ghost var st0 := store.State();
      var names := EffectiveVary(requestHeader, Some(header), vary);
      NamesOptional(names);
      FillMeetsLookup(digest, base, requestHeader, Some(header), vary, OptionalNames(names));
      StoreChunkObject(u, base, updated, names, Some(current));
      GentleFacts(base, st0, store.State());
      if !store.expired && Settled(u, st0, requestHeader, steady) &&
         (SteadyStored(requestHeader, steady, current.header) ==> SteadyStored(requestHeader, steady, updated.header)) {
        RenewalSettles(u, st0, store.State(), requestHeader, steady, current, updated, names);
      }
    }

    // The last request asked for this renewal.
    ghost predicate Answered(log: seq<Query>, base: string, current: ChunkObject, header: Header) {
      log != [] && log[|log| - 1].base == base && log[|log| - 1].request.verb == "HEAD" &&
      RenewalFields(current, origin(|log| - 1, log[|log| - 1])) == Some(header)
    }

    lemma NoChunksSettled(u: Url, st: StoreState, requestHeader: Header, steady: Steady)
      ensures NoChunks(u.base, st) ==> Settled(u, st, requestHeader, steady)
    {
    }

    lemma DatedEarlier(log: seq<Query>, ticks: nat, objects: map<(string, ChunkObject), Dating>, base: string,
                       meta: ChunkObject)
      requires LogHolds(log, ticks, objects) && (base, meta) in objects
      ensures objects[(base, meta)].tick < ticks
    {
      assert Dated(log, ticks, objects, base, meta, objects[(base, meta)]);
    }

    lemma AnsweredFacts(log: seq<Query>, base: string, current: ChunkObject, header: Header)
      requires Answered(log, base, current, header)
      ensures log != []
    {
    }

    lemma RegisterRenewal(log: seq<Query>, ticks: nat, fetches: Fetches, base: string, current: ChunkObject,
                          updated: ChunkObject,
                          header: Header, policy: Policy, tick: nat)
      requires LogHolds(log, ticks, fetches.objects) && (base, current) in fetches.objects &&
               Answered(log, base, current, header)
      requires RulePolicy(parseDuration, policy) && updated.policyTag == policy.policyTag &&
               updated.header == SanitizeChunk(header)
      requires var decision := DecideChunkMetadata(parseTime, clock(tick), policy, header);
               decision.Some? &&
               updated.windows == BuildWindows(clock(tick + 1), clock(tick + 2), clock(tick + 3), clock(tick + 4),
                                               decision.value, HasValidators(header))
      requires tick + 4 < ticks && fetches.objects[(base, current)].tick < tick
      ensures LogHolds(log, ticks, Registered(fetches, base, updated,
                                              FromRenewal(policy, |log| - 1, tick, current)).objects)
    {
      hide LogHolds, BarFree, RulePolicy, DecideChunkMetadata, DecideChunkStore, BuildWindows, HasValidators,
           SanitizeChunk, MergeRevalidated, Registered, ValidationHeader, RenewalFields, FieldsOf, Answered;
      AnsweredFields(log, base, current, header, policy, tick);
      var d := FromRenewal(policy, |log| - 1, tick, current);
      DecidedIsStored(clock(tick), policy, header);
      assert Dated(log, ticks, fetches.objects, base, updated, d);
      LogAdds(log, ticks, fetches, base, updated, d);
    }

    lemma AnsweredFields(log: seq<Query>, base: string, current: ChunkObject, header: Header, policy: Policy, tick: nat)
      requires Answered(log, base, current, header)
      ensures log != [] && log[|log| - 1].base == base && log[|log| - 1].request.verb == "HEAD" &&
              FieldsOf(log, FromRenewal(policy, |log| - 1, tick, current)) == Some(header)
    {
      hide RenewalFields;
    }

    lemma DecidedIsStored(now: int, policy: Policy, header: Header)
      ensures DecideChunkMetadata(parseTime, now, policy, header).Some? ==>
                DecideChunkMetadata(parseTime, now, policy, header).value.store
    {
    }

    // One request to the origin; the fetcher saves the body in a temporary file.
    method FetchOrigin(ghost u: Url, base: string, request: Request, ghost index: nat)
      returns (r: Option<StoredResponse>)
      requires Inv(u) && base == u.base
      modifies store, this`calls, this`fetches, this`asked
      ensures Inv(u) && Evolves(u.base, old(store.State()), store.State()) && Learns(old(fetches), fetches)
      ensures asked == old(asked) + [Query(base, request)] && calls == old(calls) + 1 &&
              fetches.objects == old(fetches.objects)
      ensures store.records == old(store.records) && store.expired == old(store.expired) &&
              Grows(old(store.files), store.files)
      ensures var reply := origin(old(calls), Query(base, request));
              if reply.FetchFailed? then r == None
              else r.Some? && r.value.status == reply.status && r.value.header == reply.header && r.value.body == [] &&
                   r.value.contentLength == reply.contentLength && r.value.cleanupPath && r.value.bodyPath.Temp? &&
                   Holds(store.history, r.value.bodyPath, reply.body) && Loose(store.State(), r.value.bodyPath) &&
                   r.value.bodyPath in fetches.bodies && fetches.bodies[r.value.bodyPath] ==
                     Fetch(index, ValidatorsOf(SanitizeChunk(reply.header)))
    {
      hide LogHolds, BarFree, Good, Evolves, Loose, ValidatorsOf, SanitizeChunk;
      var reply := origin(calls, Query(base, request));
      LogGrows(asked, ticks, fetches.objects, asked + [Query(base, request)], ticks);
      asked := asked + [Query(base, request)];
      calls := calls + 1;
      if reply.FetchFailed? {
        EvolvesReflexive(u.base, store.State());
        return None;
      }
      ghost var fetch := Fetch(index, ValidatorsOf(SanitizeChunk(reply.header)));
      CreateTempGood(u, store.State(), fetches, reply.body, fetch);
      var path := store.CreateTemp(reply.body);
      fetches := fetches.(bodies := fetches.bodies[path := fetch]);
      r := Some(StoredResponse(reply.status, reply.header, [], path, reply.contentLength, true));
    }

    method TouchChunks(ghost u: Url, base: string, key: string, invalidAt: int)
      requires Inv(u) && base == u.base && IsObjectKey(base, key)
      modifies store
      ensures Inv(u) && Evolves(base, old(store.State()), store.State())
      ensures !store.expired ==> !old(store.expired) && SameMeta(u, old(store.State()), store.State()) &&
                                 ChunksUntil(store.State(), key, invalidAt)
      ensures !store.expired && NoChunks(base, old(store.State())) ==> NoChunks(base, store.State())
    {
      hide LogHolds, BarFree, Good, Evolves, Lapse, TouchAll, RangeChunkPrefix, ListsChunks, ChunksUntil, SameMeta,
           NoChunks;
      ghost var st0 := store.State();
      GoodFacts(u, st0, fetches);
      OwnedKeys(base, key, 0);
      LapseGood(store.world, u, st0, fetches);
      ghost var st1 := Lapse(store.world, st0);
      ghost var order := store.TouchChunkPrefix(RangeChunkPrefix(key), invalidAt);
      TouchListed(u, st1, fetches, key, order);
      TouchGood(store.world, u, st1, fetches, order, invalidAt);
      EvolvesTransitive(base, st0, st1, store.State());
      EvolvesFacts(base, st0, store.State());
      EvolvesFacts(base, st1, store.State());
      TouchedUntil(store.world, st1, key, order, invalidAt);
      TouchAddsNone(store.world, base, st1, key, order, invalidAt);
      LapseGentle(store.world, base, st0);
      GentleFacts(base, st0, st1);
      SameMetaFrom(u, st0, st1, store.State());
    }

    // Unless a record has expired, the object is where a lookup for these fields goes.
    ghost predicate IsStoredAt(st: StoreState, base: string, requestHeader: Header, key: string, meta: ChunkObject) {
      !st.expired ==>
        ObjectAt(st, RangeObjectKey(key)) == Some(meta) &&
        key == LookupKey(digest, base, requestHeader, VaryAt(st, RangeVaryKey(base)))
    }

    // A lookup for these fields finds an object.
    ghost predicate KnownObject(st: StoreState, base: string, requestHeader: Header) {
      ObjectAt(st, RangeObjectKey(LookupKey(digest, base, requestHeader, VaryAt(st, RangeVaryKey(base))))).Some?
    }

    lemma KnownIf(st: StoreState, st': StoreState, base: string, requestHeader: Header)
      ensures st'.records == st.records ==>
                KnownObject(st', base, requestHeader) == KnownObject(st, base, requestHeader)
    {
    }

    lemma KnownIs(st: StoreState, base: string, requestHeader: Header, key: string)
      ensures key == LookupKey(digest, base, requestHeader, VaryAt(st, RangeVaryKey(base))) ==>
                (KnownObject(st, base, requestHeader) <==> ObjectAt(st, RangeObjectKey(key)).Some?)
    {
    }

    // The reply to the n-th request, if that asks whether the object is current.
    function HeadReply(n: nat, base: string, requestHeader: Header, meta: ChunkObject): FetchReply {
      origin(n, Query(base, Request("HEAD", ValidationHeader(requestHeader, meta))))
    }

    // The policy, at the given reading, does not let the renewed fields be stored.
    ghost predicate Refuses(policy: Policy, meta: ChunkObject, reply: FetchReply, tick: nat)
      requires RenewalFields(meta, reply).Some?
    {
      DecideChunkMetadata(parseTime, clock(tick), policy, RenewalFields(meta, reply).value).None?
    }

    function ValidationHeader(requestHeader: Header, meta: ChunkObject): Header {
      var h := (requestHeader - {"Range"})["Accept-Encoding" := ["identity"]];
      var etag, lastModified := Get(meta.header, "Etag"), Get(meta.header, "Last-Modified");
      var h1 := if etag != "" then h["If-None-Match" := [etag]] else h;
      if lastModified != "" then h1["If-Modified-Since" := [lastModified]] else h1
    }

    // It asks for the object, unencoded, on the condition that its validators changed,
    // and is otherwise the client's.
    lemma ValidationHeaderIs(h: Header, meta: ChunkObject, name: string)
      ensures Values(ValidationHeader(h, meta), name) ==
              if name == "Range" then []
              else if name == "Accept-Encoding" then ["identity"]
              else if name == "If-None-Match" && Get(meta.header, "Etag") != "" then [Get(meta.header, "Etag")]
              else if name == "If-Modified-Since" && Get(meta.header, "Last-Modified") != "" then
                [Get(meta.header, "Last-Modified")]
              else Values(h, name)
    {
    }

    // Status and fields of the origin's reply; its body is dropped.
    method AskForFields(ghost u: Url, base: string, request: Request) returns (r: Option<(int, Header)>)
      requires Inv(u) && base == u.base
      modifies store, this`calls, this`fetches, this`asked
      ensures Inv(u) && Evolves(base, old(store.State()), store.State()) && Learns(old(fetches), fetches)
      ensures asked == old(asked) + [Query(base, request)] && fetches.objects == old(fetches.objects)
      ensures store.records == old(store.records) && store.expired == old(store.expired)
      ensures var reply := origin(old(calls), Query(base, request));
              if reply.FetchFailed? then r == None else r == Some((reply.status, reply.header))
    {
      hide LogHolds, BarFree, Good, Evolves, Loose;
      ghost var st0 := store.State();
      var fetched := FetchOrigin(u, base, request, 0);
      if fetched.None? {
        return None;
      }
      ghost var st1 := store.State();
      RemoveTempGood(u, st1, fetches, fetched.value.bodyPath);
      store.RemoveBodyPath(fetched.value.bodyPath);
      EvolvesTransitive(base, st0, st1, store.State());
      EvolvesFacts(base, st1, store.State());
      r := Some((fetched.value.status, fetched.value.header));
    }

    // Asks the origin with HEAD whether the stored version is still current.
    method RevalidateChunkObject(ghost u: Url, base: string, requestHeader: Header, policy: Policy, key: string,
                                 meta: ChunkObject, ghost steady: Steady)
      returns (r: Revalidation)
      requires Inv(u) && base == u.base && IsObjectKey(base, key) && ObjectOk(u, RangeObjectKey(key), meta)
      requires RulePolicy(parseDuration, policy) && (base, meta) in fetches.objects
      requires IsStoredAt(store.State(), base, requestHeader, key, meta)
      modifies store, this`ticks, this`calls, this`fetches, this`asked
      ensures Inv(u) && Evolves(base, old(store.State()), store.State()) && Learns(old(fetches), fetches)
      ensures asked == old(asked) + [Query(base, Request("HEAD", ValidationHeader(requestHeader, meta)))]
      ensures r.NotRenewed? ==> store.records == old(store.records) && store.expired == old(store.expired)
      ensures ticks >= old(ticks) && (r.Renewed? ==> ticks > old(ticks))
      ensures var reply := HeadReply(old(calls), base, requestHeader, meta);
              (r.RevalidationFailed? <==> reply.FetchFailed?) && (r.Renewed? <==> RenewalFields(meta, reply).Some?) &&
              (r.Renewed? ==>
                 (r.meta == ZERO_OBJECT || r.meta.baseAge == ParseAge(Get(reply.header, "Age"))) &&
                 RenewedWell(u, requestHeader, policy, key, meta, reply.status, RenewalFields(meta, reply).value,
                             old(ticks), store.State(), fetches, r))
      ensures !store.expired && SteadyOrigin(base, requestHeader, steady) &&
              Settled(u, old(store.State()), requestHeader, steady) ==>
                Settled(u, store.State(), requestHeader, steady)
    {
      hide TouchDue, KnownObject, LogHolds, BarFree, ChunksUntil, SameMeta, Good, Evolves, Loose, ObjectOk,
           RangeObjectKey, RangeVaryKey, LookupKey, ValidatorsOf, SanitizeChunk, MergeRevalidated, DecideChunkMetadata,
           StorageKey, BuildWindows, EffectiveVary, NoChunks, SteadyOrigin, Settled, SteadyStored, RulePolicy,
           ValidationHeader, RenewedWell, ParseAge, Get;
      ghost var st0, call := store.State(), calls;
      var request := Request("HEAD", ValidationHeader(requestHeader, meta));
      var response := AskForFields(u, base, request);
      ghost var st2 := store.State();
      SettledFacts(u, st0, st2, requestHeader, steady);
      if response.None? {
        return RevalidationFailed;
      }
      var status, header := response.value.0, response.value.1;
      if status == 304 || status == 200 {
        var merged := if status == 304 then MergeRevalidated(meta.header, header) else SanitizeChunk(header);
        if SteadyOrigin(base, requestHeader, steady) {
          RenewsSteadily(base, call, request, requestHeader, steady, meta);
        }
        var age := ParseAge(Get(header, "Age"));
        r := RenewAndTouch(u, base, requestHeader, policy, key, meta, status, merged, age, steady);
        EvolvesTransitive(base, st0, st2, store.State());
      } else {
        r := NotRenewed;
      }
    }

    // What a renewal from the given fields comes to: the zero object if the policy refuses
    // them; otherwise a dated object of this policy with those fields, where lookups find
    // it, its chunks extended if the version is the stored one.
    ghost predicate RenewedWell(u: Url, requestHeader: Header, policy: Policy, key: string, meta: ChunkObject,
                                status: int, fields: Header, tick: nat, st': StoreState, fetches: Fetches,
                                r: Revalidation) {
      r.Renewed? &&
      if DecideChunkMetadata(parseTime, clock(tick), policy, fields).None? then r.meta == ZERO_OBJECT
      else
        IsObjectKey(u.base, r.key) && r.meta.key == r.key && ObjectOk(u, RangeObjectKey(r.key), r.meta) &&
        (u.base, r.meta) in fetches.objects && r.meta.policyTag == policy.policyTag &&
        r.meta.siteId == policy.siteId && r.meta.ruleId == policy.ruleId && r.meta.header == SanitizeChunk(fields) &&
        (!st'.expired ==>
           KnownObject(st', u.base, requestHeader) &&
           (TouchDue(status, key, meta, r, fields) ==> ChunksUntil(st', r.key, r.meta.windows.invalidAt)))
    }

    // Renews the object and, if the version is the stored one, extends its chunks.
    method RenewAndTouch(ghost u: Url, base: string, requestHeader: Header, policy: Policy, key: string,
                         meta: ChunkObject,
                         status: int, merged: Header, age: nat, ghost steady: Steady)
      returns (r: Revalidation)
      requires Inv(u) && base == u.base && IsObjectKey(base, key) && ObjectOk(u, RangeObjectKey(key), meta)
      requires RulePolicy(parseDuration, policy) && (base, meta) in fetches.objects &&
               Answered(asked, base, meta, merged)
      requires IsStoredAt(store.State(), base, requestHeader, key, meta)
      modifies store, this`ticks, this`fetches
      ensures Inv(u) && Evolves(base, old(store.State()), store.State()) && Learns(old(fetches), fetches)
      ensures ticks > old(ticks) && r.Renewed? && (r.meta == ZERO_OBJECT || r.meta.baseAge == age)
      ensures RenewedWell(u, requestHeader, policy, key, meta, status, merged, old(ticks), store.State(), fetches, r)
      ensures !store.expired && Settled(u, old(store.State()), requestHeader, steady) &&
              (SteadyStored(requestHeader, steady, meta.header) ==>
                 SteadyStored(requestHeader, steady, SanitizeChunk(merged))) ==>
                Settled(u, store.State(), requestHeader, steady)
    {
      hide LogHolds, BarFree, ChunksUntil, SameMeta, Good, Evolves, Loose, ObjectOk, RangeObjectKey, RangeVaryKey,
           LookupKey, ValidatorsOf, SanitizeChunk, DecideChunkMetadata, StorageKey, BuildWindows, EffectiveVary,
           NoChunks, Settled, SteadyStored, RulePolicy, Answered, ParseAge;
      ghost var st0 := store.State();
      var updated, updatedKey, sameVersion := RenewChunkObject(u, base, requestHeader, policy, key, meta, merged, age,
                                                               steady);
      ghost var st1 := store.State();
      // After a refused renewal there is nothing to touch: no object key is empty.
      if updatedKey != "" && (if status == 304 then sameVersion
                              else ValidatorsOf(meta.header) == ValidatorsOf(merged)) {
        TouchChunks(u, base, updatedKey, updated.windows.invalidAt);
        SameMetaFacts(u, st1, store.State(), updatedKey);
        EvolvesTransitive(base, st0, st1, store.State());
        if !store.expired && Settled(u, st1, requestHeader, steady) {
          SettledSameMeta(u, st1, store.State(), requestHeader, steady);
        }
      }
      r := Renewed(updated, updatedKey);
    }

    // The renewed version is the stored one.
    ghost predicate TouchDue(status: int, key: string, meta: ChunkObject, r: Revalidation, merged: Header) {
      r.Renewed? &&
      if status == 304 then r.key == key && ValidatorsOf(meta.header) == ValidatorsOf(r.meta.header)
      else ValidatorsOf(meta.header) == ValidatorsOf(merged)
    }

    // Decides on a partial reply and builds the object it belongs to.
    method PartialReply(base: string, requestHeader: Header, policy: Policy, response: StoredResponse, total: int)
      returns (r: ChunkReply)
      requires response.status == 206
      modifies this`ticks
      ensures r.ChunkReply? && !r.fullObject && r.response == response &&
              r.meta.header == SanitizeChunk(response.header) && r.meta.policyTag == policy.policyTag
      ensures r.meta.totalLength == total && r.meta.chunkSize == chunkSize && r.meta.siteId == policy.siteId &&
              r.meta.ruleId == policy.ruleId && r.meta.baseAge == ParseAge(Get(response.header, "Age"))
      ensures IsObjectKey(base, r.meta.key) && r.meta.key == StorageKey(digest, base, r.decision.vary, requestHeader)
      ensures DecidedFor(requestHeader, policy, Reply(response.status, response.header, [], 0), clock(old(ticks)),
                         clock(old(ticks) + 1), r)
      ensures ticks == old(ticks) + 2
      ensures old(LogHolds(asked, ticks, fetches.objects)) ==> LogHolds(asked, ticks, fetches.objects)
    {
      hide LogHolds, BarFree, StorageKey, EffectiveVary, DecideChunkStore, HasValidators, SanitizeChunk, IsObjectKey,
           LookupKey;
      var decidedAt := Now();
      var decision := DecideChunkStore(parseTime, decidedAt, policy, response.status, response.header);
      decision := decision.(vary := EffectiveVary(requestHeader, Some(response.header), decision.vary));
      var builtAt := Now();
      KeysAreObjectKeys(digest, base, decision.vary, requestHeader, None);
      var meta := ChunkObject(StorageKey(digest, base, decision.vary, requestHeader), policy.siteId, policy.ruleId,
                              policy.policyTag,
                              BuildWindows(builtAt, builtAt, builtAt, builtAt, decision,
                                           HasValidators(response.header)), ParseAge(Get(response.header, "Age")),
                              SanitizeChunk(response.header), total, chunkSize);
      r := ChunkReply(response, meta, decision, false);
    }

    // A reply that carries the whole body is used, but never stored as a chunk.
    method FullReply(base: string, requestHeader: Header, policy: Policy, response: StoredResponse)
      returns (r: ChunkReply)
      modifies this`ticks
      ensures r.ChunkReply? && r.fullObject && r.response == response && r.decision == NO_STORE &&
              r.meta.policyTag == policy.policyTag
      ensures r.meta.header == SanitizeChunk(response.header) && r.meta.totalLength == response.contentLength &&
              IsObjectKey(base, r.meta.key)
      ensures r.meta.siteId == policy.siteId && r.meta.ruleId == policy.ruleId
      ensures ticks == old(ticks) + 1
      ensures old(LogHolds(asked, ticks, fetches.objects)) ==> LogHolds(asked, ticks, fetches.objects)
    {
      hide LogHolds, StorageKey, EffectiveVary, BuildWindows, HasValidators, SanitizeChunk, IsObjectKey, LookupKey;
      var names := EffectiveVary(requestHeader, Some(response.header), []);
      var now := Now();
      KeysAreObjectKeys(digest, base, names, requestHeader, None);
      var meta := ChunkObject(StorageKey(digest, base, names, requestHeader), policy.siteId, policy.ruleId,
                              policy.policyTag,
                              BuildWindows(now, now, now, now, NO_STORE, HasValidators(response.header)),
                                ParseAge(Get(response.header, "Age")),
                              SanitizeChunk(response.header), response.contentLength, response.contentLength);
      r := ChunkReply(response, meta, NO_STORE, true);
    }

    lemma DecidedSame(requestHeader: Header, policy: Policy, reply: FetchReply, other: FetchReply, now: int, later: int,
                      r: ChunkReply)
      requires reply.Reply? && other.Reply? && reply.header == other.header &&
               DecidedFor(requestHeader, policy, reply, now, later, r)
      ensures DecidedFor(requestHeader, policy, other, now, later, r)
    {
    }

    // The steady origin's partial replies are of its version and names.
    lemma DecidedSteady(base: string, requestHeader: Header, policy: Policy, n: nat, request: Request, now: int,
                        later: int, r: ChunkReply, steady: Steady)
      requires origin(n, Query(base, request)).Reply? && origin(n, Query(base, request)).status == 206 &&
               DecidedFor(requestHeader, policy, origin(n, Query(base, request)), now, later, r)
      requires SteadyOrigin(base, requestHeader, steady) && r.ChunkReply? &&
               r.meta.header == SanitizeChunk(origin(n, Query(base, request)).header)
      ensures SteadyStored(requestHeader, steady, r.meta.header) &&
              (r.decision.store ==> r.decision.vary == steady.names)
    {
      hide DecideChunkStore, EffectiveVary, SanitizeChunk, ValidatorsOf;
      assert SteadyReply(requestHeader, steady, request.verb, origin(n, Query(base, request)));
      MetadataNames(parseTime, now, policy, origin(n, Query(base, request)).header);
    }

    // The object built on a storable partial reply, dated.
    lemma RegisterReply(log: seq<Query>, ticks: nat, fetches: Fetches, base: string, requestHeader: Header,
                        policy: Policy, request: Request, tick: nat, r: ChunkReply)
      requires LogHolds(log, ticks, fetches.objects) && RulePolicy(parseDuration, policy) && tick + 1 < ticks &&
               log != []
      requires log[|log| - 1] == Query(base, request) && request.verb == "GET"
      requires var reply := origin(|log| - 1, Query(base, request));
               reply.Reply? && reply.status == 206 && DecidedFor(requestHeader, policy, reply, clock(tick),
                                                                 clock(tick + 1), r) &&
               r.meta.header == SanitizeChunk(reply.header)
      requires r.meta.policyTag == policy.policyTag && r.decision.store
      ensures LogHolds(log, ticks, Registered(fetches, base, r.meta, FromReply(policy, |log| - 1, tick)).objects)
    {
      hide LogHolds, BarFree, RulePolicy, DecideChunkStore, DecideChunkMetadata, EffectiveVary, HasValidators,
           SanitizeChunk, Registered;
      var d := FromReply(policy, |log| - 1, tick);
      assert Dated(log, ticks, fetches.objects, base, r.meta, d);
      LogAdds(log, ticks, fetches, base, r.meta, d);
    }

    // What the reply to the request for one chunk carries.
    lemma ChunkReplyHonest(u: Url, n: nat, requestHeader: Header, index: nat)
      requires HonestOrigin(u) && chunkSize > 0 && (MAX_INT64 + 1) % chunkSize == 0 && index * chunkSize <= MAX_INT64 &&
               0 < |u.body|
      ensures 0 <= index * chunkSize
      ensures var reply := origin(n, Query(u.base, Request("GET", ChunkHeader(requestHeader, index))));
              reply.Reply? ==>
                (reply.status == 200 && Get(reply.header, "Content-Range") == "" ==>
                   reply.body == u.body && reply.contentLength == |u.body|) &&
                (reply.status == 206 && ParseContentRange(Get(reply.header, "Content-Range")).Some? ==>
                   index * chunkSize < |u.body| && reply.body == Chunk(u.body, index, chunkSize) &&
                   reply.contentLength > 0 &&
                   ParseContentRange(Get(reply.header, "Content-Range")).value.total == |u.body|)
    {
      hide ParseSingleByteRange, ParseContentRange, RangeHeader, HonestReply, Chunk;
      var chunkStart, chunkEnd := index * chunkSize, index * chunkSize + chunkSize - 1;
      ChunkEndFits(index, chunkSize);
      var request := Request("GET", ChunkHeader(requestHeader, index));
      RangeHeaderParses(chunkStart, chunkEnd);
      assert Get(request.header, "Range") == RangeHeader(chunkStart, chunkEnd);
      assert HonestReply(u.body, request, origin(n, Query(u.base, request)));
      if origin(n, Query(u.base, request)).Reply? {
        HonestChunk(u.body, request, origin(n, Query(u.base, request)), index, chunkSize);
      }
    }

    // Asks the origin for one aligned chunk.
    method FetchChunk(ghost u: Url, base: string, requestHeader: Header, policy: Policy, index: nat,
                      ghost steady: Steady) returns (r: ChunkReply)
      requires Inv(u) && base == u.base && HonestOrigin(u) && index * chunkSize <= MAX_INT64
      modifies store, this`ticks, this`calls, this`fetches, this`asked
      ensures Inv(u) && Evolves(base, old(store.State()), store.State()) && Learns(old(fetches), fetches)
      ensures store.records == old(store.records) && store.expired == old(store.expired) &&
              Grows(old(store.files), store.files)
      ensures r.ChunkReply? ==>
                var path := r.response.bodyPath;
                path.Temp? && r.response.cleanupPath && Loose(store.State(), path) && r.response.body == [] &&
                path in fetches.bodies && fetches.bodies[path] == Fetch(index, ValidatorsOf(r.meta.header)) &&
                IsObjectKey(base, r.meta.key) && r.meta.totalLength == |u.body| &&
                r.meta.policyTag == policy.policyTag &&
                r.response.contentLength > 0 &&
                if r.fullObject then Holds(store.history, path, u.body)
                else r.meta.chunkSize == chunkSize && 0 <= index * chunkSize < |u.body| &&
                     Holds(store.history, path, Chunk(u.body, index, chunkSize)) &&
                     r.meta.key == StorageKey(digest, base, r.decision.vary, requestHeader)
      ensures r.ChunkReply? && !r.fullObject && r.decision.store && SteadyOrigin(base, requestHeader, steady) ==>
                r.decision.vary == steady.names && SteadyStored(requestHeader, steady, r.meta.header)
      ensures ticks >= old(ticks) && (r.ChunkReply? && !r.fullObject ==> ticks == old(ticks) + 2) &&
              fetches.objects == old(fetches.objects)
      ensures 0 <= index * chunkSize &&
              asked == old(asked) + [Query(base, Request("GET", ChunkHeader(requestHeader, index)))] &&
              var reply := origin(old(calls), Query(base, Request("GET", ChunkHeader(requestHeader, index))));
              (r.ReplyFailed? <==> reply.FetchFailed?) &&
              (r.ChunkReply? && r.fullObject <==> reply.Reply? && reply.status == 200 &&
                                                  Get(reply.header, "Content-Range") == "" &&
                                                  reply.contentLength > 0) &&
              (r.ChunkReply? && !r.fullObject <==> Usable(reply)) &&
              (r.ChunkReply? ==> r.response.status == reply.status && r.meta.header == SanitizeChunk(reply.header)) &&
              (r.ChunkReply? && !r.fullObject ==> DecidedFor(requestHeader, policy, reply, clock(old(ticks)),
                                                             clock(old(ticks) + 1), r))
    {
      ghost var calls0 := calls;
      hide ChunkHeader, HonestOrigin, LogHolds, BarFree, DecidedFor, SteadyOrigin, SteadyStored, Good, Evolves, Loose,
           LookupKey, ValidatorsOf, SanitizeChunk, StorageKey, BuildWindows, EffectiveVary, DecideChunkStore,
           PlainEncoding, ParseSingleByteRange, ParseContentRange, RangeHeader, HasValidators, HonestReply, Chunk,
           ParseAge, Get, IsObjectKey;
      GoodFacts(u, store.State(), fetches);
      ChunkReplyHonest(u, calls, requestHeader, index);
      var request := Request("GET", ChunkHeader(requestHeader, index));
      var fetched := FetchOrigin(u, base, request, index);
      if fetched.None? {
        return ReplyFailed;
      }
      var response := fetched.value;
      GoodFacts(u, store.State(), fetches);
      if response.status == 200 && Get(response.header, "Content-Range") == "" && response.contentLength > 0 {
        r := FullReply(base, requestHeader, policy, response);
        return;
      }
      if response.status != 206 || Get(response.header, "Content-Range") == "" || !PlainEncoding(response.header) {
        return ReplyBypass;
      }
      var contentRange := ParseContentRange(Get(response.header, "Content-Range"));
      if contentRange.None? {
        return ReplyBypass;
      }
      ghost var ticks0 := ticks;
      r := PartialReply(base, requestHeader, policy, response, contentRange.value.total);
      DecidedSame(requestHeader, policy, Reply(response.status, response.header, [], 0),
                  origin(calls0, Query(base, request)), clock(ticks0), clock(ticks0 + 1), r);
      if SteadyOrigin(base, requestHeader, steady) {
        DecidedSteady(base, requestHeader, policy, calls0, request, clock(ticks0), clock(ticks0 + 1), r, steady);
      }
    }

    // The object stored so far, and the fetched body moved into the blob directory.
    method ImportChunkBody(ghost u: Url, base: string, key: string, path: BodyPath)
      returns (existing: Option<ChunkObject>, blob: BodyPath)
      requires Inv(u) && base == u.base && path.Temp? && Loose(store.State(), path) && path in fetches.bodies
      modifies store, this`fetches
      ensures Inv(u) && Evolves(base, old(store.State()), store.State()) && Learns(old(fetches), fetches)
      ensures fetches.objects == old(fetches.objects)
      ensures blob in fetches.bodies && fetches.bodies[blob] == fetches.bodies[path] && Loose(store.State(), blob) &&
              blob.Blob? && Holds(store.history, blob, old(store.history)[path])
      ensures !store.expired ==> existing == ObjectAt(store.State(), RangeObjectKey(key)) &&
                                 store.records == old(store.records)
      ensures NoChunks(base, old(store.State())) ==> NoChunks(base, store.State())
      ensures forall p :: p in old(store.files) && p != path ==> p in store.files
    {
      hide LogHolds, BarFree, Good, Evolves, Gentle, Lapse, NoChunks, Loose, RangeObjectKey, MayPut;
      ghost var st0 := store.State();
      LapseGood(store.world, u, st0, fetches);
      LapseGentle(store.world, base, st0);
      existing := store.GetChunkObject(RangeObjectKey(key));
      ghost var st1 := store.State();
      GentleFacts(base, st0, st1);
      LooseFacts(st1, path);
      GoodFacts(u, st1, fetches);
      ImportGood(u, st1, fetches, path);
      ImportGentle(base, st1, path);
      fetches := fetches.(bodies := fetches.bodies[Blob(path.id) := fetches.bodies[path]]);
      blob := store.ImportBody(path);
      EvolvesTransitive(base, st0, st1, store.State());
      EvolvesFacts(base, st1, store.State());
    }

    // Writes the object of a fetched chunk; chunks of another version go.
    method WriteObjectVersion(ghost u: Url, base: string, meta: ChunkObject, names: seq<string>,
                              existing: Option<ChunkObject>)
      requires Inv(u) && base == u.base && IsObjectKey(base, meta.key) && ObjectOk(u, RangeObjectKey(meta.key), meta)
      requires (base, meta) in fetches.objects
      requires !store.expired ==> existing == ObjectAt(store.State(), RangeObjectKey(meta.key))
      modifies store
      ensures Inv(u) && Evolves(base, old(store.State()), store.State())
      ensures forall p :: Loose(old(store.State()), p) ==> Loose(store.State(), p)
      ensures !store.expired ==> !old(store.expired) &&
                                 ObjectAt(store.State(), RangeObjectKey(meta.key)) == Some(meta) &&
                                 VaryAt(store.State(), RangeVaryKey(base)) == OptionalNames(names)
      ensures !store.expired && (NoChunks(base, old(store.State())) ||
                                 Agrees(u, old(store.State()), meta.key, ValidatorsOf(meta.header), names)) ==>
                store.files == old(store.files)
      ensures !store.expired && ReplacesVersion(base, old(store.State()), meta, names, existing) ==>
                LosesBodies(old(store.State()), store.State(), RangeChunkPrefix(meta.key))
    {
      hide LogHolds, BarFree, Good, Evolves, Gentle, NoChunks, Loose, ValidatorsOf, ObjectOk, RangeObjectKey,
           RangeVaryKey, RangeChunkPrefix, DeletePrefixState, OptionalNames, LosesBodies, ReplacesVersion,
           NoOtherObjects;
      ghost var st0 := store.State();
      OwnedKeys(base, meta.key, 0);
      StoreChunkObject(u, base, meta, names, existing);
      ghost var st1 := store.State();
      GentleFacts(base, st0, st1);
      EvolvesFacts(base, st0, st1);
      if existing.Some? && ValidatorsOf(existing.value.header) != ValidatorsOf(meta.header) {
        DeleteChunksGood(store.world, u, st1, fetches, RangeChunkPrefix(meta.key));
        DeletesFiles(store.world, st1, RangeChunkPrefix(meta.key));
        LapsesOnce(store.world, st1, RangeChunkPrefix(meta.key));
        var _ := store.DeletePrefix(RangeChunkPrefix(meta.key));
        StaysLost(st0, st1, store.State(), RangeChunkPrefix(meta.key));
        EvolvesTransitive(base, st0, st1, store.State());
        EvolvesFacts(base, st1, store.State());
        GentleFacts(base, st1, store.State());
      }
    }

    method PutFetchedChunk(ghost u: Url, base: string, policy: Policy, meta: ChunkObject, index: nat, path: BodyPath,
                           length: int) returns (part: RangePart)
      requires Inv(u) && base == u.base && IsObjectKey(base, meta.key)
      requires path.Blob? && Loose(store.State(), path) && path in fetches.bodies &&
               fetches.bodies[path] == Fetch(index, ValidatorsOf(meta.header))
      requires 0 <= index * chunkSize < |u.body| && Holds(store.history, path, Chunk(u.body, index, chunkSize))
      requires !store.expired ==> ObjectAt(store.State(), RangeObjectKey(meta.key)) == Some(meta)
      modifies store, this`ticks
      ensures Inv(u) && Evolves(base, old(store.State()), store.State())
      ensures ticks >= old(ticks)
      ensures part == RangePart([], path, 0, length, false)
      ensures part.path in store.files && ForChunk(u, store.history, fetches, part, index)
      ensures !store.expired ==> ChunkStored(store.State(), meta, index, part.path)
      ensures Spares(old(store.State()), store.State(), fetches, index)
      ensures !store.expired ==> !old(store.expired) && SameMeta(u, old(store.State()), store.State())
      ensures forall p :: p in store.files ==> p in old(store.files)
    {
      hide LogHolds, BarFree, ChunkStored, Good, Evolves, Loose, ValidatorsOf, RangeObjectKey, RangeChunkKey,
           PutChunkState, MayPut, OwnsChunk, Chunk, SameMeta;
      ghost var st0 := store.State();
      GoodFacts(u, st0, fetches);
      OwnedKeys(base, meta.key, index);
      LooseFacts(st0, path);
      var now := Now();
      var chunk := ChunkEntry(RangeChunkKey(meta.key, index), policy.siteId, meta.key, index, now,
                              meta.windows.invalidAt, path, length);
      part := RangePart([], path, 0, length, false);
      PutChunkGood(store.world, u, st0, fetches, chunk.key, chunk);
      ChunkIndexFits(u, index);
      PutChunkFiles(store.world, u, st0, fetches, chunk);
      PutIsStored(store.world, st0, meta, index, chunk);
      PutOnlyLosesFiles(store.world, st0, chunk);
      store.PutChunk(chunk.key, chunk);
      EvolvesFacts(base, st0, store.State());
    }

    // Stores a fetched chunk and its object: the body is imported, the object written,
    // chunks of another version dropped, and the chunk put last.
    method StoreChunk(ghost u: Url, base: string, policy: Policy, meta: ChunkObject, names: seq<string>, index: nat,
                      response: StoredResponse)
      returns (part: RangePart)
      requires Inv(u) && base == u.base && IsObjectKey(base, meta.key) && ObjectOk(u, RangeObjectKey(meta.key), meta)
      requires (base, meta) in fetches.objects
      requires response.bodyPath.Temp? && Loose(store.State(), response.bodyPath) && response.bodyPath in fetches.bodies
      requires fetches.bodies[response.bodyPath] == Fetch(index, ValidatorsOf(meta.header))
      requires 0 <= index * chunkSize < |u.body| &&
               Holds(store.history, response.bodyPath, Chunk(u.body, index, chunkSize))
      modifies store, this`ticks, this`fetches
      ensures Inv(u) && Evolves(base, old(store.State()), store.State()) && Learns(old(fetches), fetches)
      ensures part.path in store.files && part.body == [] && !part.cleanupPath &&
              ForChunk(u, store.history, fetches, part, index)
      ensures !store.expired ==> ChunkStored(store.State(), meta, index, part.path)
      ensures !store.expired ==> !old(store.expired) &&
                                 Agrees(u, store.State(), meta.key, ValidatorsOf(meta.header), names)
      ensures !store.expired ==> ObjectAt(store.State(), RangeObjectKey(meta.key)) == Some(meta)
      ensures ticks >= old(ticks)
      ensures !store.expired && (NoChunks(base, old(store.State())) ||
                                 Agrees(u, old(store.State()), meta.key, ValidatorsOf(meta.header), names)) ==>
                Spares(old(store.State()), store.State(), fetches, index)
      ensures !store.expired && ChangesVersion(old(store.State()), meta) ==>
                LosesBodies(old(store.State()), store.State(), RangeChunkPrefix(meta.key))
    {
      hide LogHolds, BarFree, ChunkStored, Good, Evolves, NoChunks, Loose, ValidatorsOf, ObjectOk, RangeObjectKey,
           RangeVaryKey, MayPut, OwnsChunk, Chunk, OptionalNames, SameMeta, LosesBodies;
      ghost var st0 := store.State();
      var existing, path := ImportChunkBody(u, base, meta.key, response.bodyPath);
      ghost var st1 := store.State();
      WriteObjectVersion(u, base, meta, names, existing);
      ghost var st2 := store.State();
      EvolvesTransitive(base, st0, st1, st2);
      EvolvesFacts(base, st1, st2);
      part := PutFetchedChunk(u, base, policy, meta, index, path, response.contentLength);
      EvolvesTransitive(base, st0, st2, store.State());
      SameMetaFacts(u, st2, store.State(), meta.key);
      if !store.expired && ChangesVersion(st0, meta) {
        assert ReplacesVersion(base, st1, meta, names, existing);
        StaysLost(st1, st2, store.State(), RangeChunkPrefix(meta.key));
        SameRecordsLose(st0, st1, store.State(), RangeChunkPrefix(meta.key));
      }
    }

    // Stores a fetched chunk that the policy lets be stored, with its object.
    method StoreFetched(ghost u: Url, base: string, requestHeader: Header, policy: Policy, index: nat,
                        reply: ChunkReply, ghost request: Request, ghost tick: nat)
      returns (part: RangePart)
      requires Inv(u) && base == u.base && RulePolicy(parseDuration, policy) && reply.ChunkReply? &&
               reply.decision.store && !reply.fullObject
      requires tick + 1 < ticks && asked != [] && asked[|asked| - 1] == Query(base, request) && request.verb == "GET"
      requires var r := origin(|asked| - 1, Query(base, request));
               r.Reply? && r.status == 206 && DecidedFor(requestHeader, policy, r, clock(tick), clock(tick + 1),
                                                         reply) &&
               reply.meta.header == SanitizeChunk(r.header)
      requires reply.meta.policyTag == policy.policyTag && IsObjectKey(base, reply.meta.key) &&
               ObjectOk(u, RangeObjectKey(reply.meta.key), reply.meta)
      requires reply.response.bodyPath.Temp? && Loose(store.State(), reply.response.bodyPath) &&
               reply.response.bodyPath in fetches.bodies
      requires fetches.bodies[reply.response.bodyPath] == Fetch(index, ValidatorsOf(reply.meta.header))
      requires 0 <= index * chunkSize < |u.body| &&
               Holds(store.history, reply.response.bodyPath, Chunk(u.body, index, chunkSize))
      modifies store, this`ticks, this`fetches
      ensures Inv(u) && Evolves(base, old(store.State()), store.State()) && Learns(old(fetches), fetches) &&
              ticks >= old(ticks)
      ensures part.path in store.files && part.body == [] && !part.cleanupPath &&
              ForChunk(u, store.history, fetches, part, index) &&
              (base, reply.meta) in fetches.objects
      ensures !store.expired ==> ChunkStored(store.State(), reply.meta, index, part.path)
      ensures !store.expired ==> !old(store.expired) &&
                                 Agrees(u, store.State(), reply.meta.key, ValidatorsOf(reply.meta.header),
                                        reply.decision.vary)
      ensures !store.expired ==> ObjectAt(store.State(), RangeObjectKey(reply.meta.key)) == Some(reply.meta)
      ensures !store.expired && (NoChunks(base, old(store.State())) ||
                                 Agrees(u, old(store.State()), reply.meta.key, ValidatorsOf(reply.meta.header),
                                        reply.decision.vary)) ==>
                Spares(old(store.State()), store.State(), fetches, index)
      ensures !store.expired && ChangesVersion(old(store.State()), reply.meta) ==>
                LosesBodies(old(store.State()), store.State(), RangeChunkPrefix(reply.meta.key))
    {
      hide LogHolds, BarFree, Registered, RulePolicy, DecidedFor, ChunkStored, Good, Evolves, Loose, ValidatorsOf,
           RangeObjectKey, RangeVaryKey, Chunk, OwnsChunk, SanitizeChunk, IsObjectKey, NoChunks, Agrees, Spares,
           ObjectOk, LosesBodies, ChangesVersion;
      ghost var d := FromReply(policy, |asked| - 1, tick);
      RegisterReply(asked, ticks, fetches, base, requestHeader, policy, request, tick, reply);
      RegisteredLearns(u, store.State(), fetches, reply.meta, d);
      fetches := Registered(fetches, base, reply.meta, d);
      part := StoreChunk(u, base, policy, reply.meta, reply.decision.vary, index, reply.response);
    }

    // Fetches one chunk and, when the policy allows, stores it with its object.
    method FetchAndMaybeStoreChunk(ghost u: Url, base: string, requestHeader: Header, policy: Policy, index: nat,
                                   ghost steady: Steady)
      returns (r: ChunkFetch, ghost stored: bool)
      requires Inv(u) && base == u.base && HonestOrigin(u) && index * chunkSize <= MAX_INT64 &&
               RulePolicy(parseDuration, policy)
      modifies store, this`ticks, this`calls, this`fetches, this`asked
      ensures Inv(u) && Evolves(base, old(store.State()), store.State()) && Learns(old(fetches), fetches)
      ensures Asks(old(asked), asked) && ticks >= old(ticks)
      ensures r.ChunkFetched? ==>
                r.meta.totalLength == |u.body| && IsObjectKey(base, r.meta.key) &&
                r.meta.policyTag == policy.policyTag &&
                r.part.path in store.files && r.part.body == [] &&
                if r.fullObject then r.part.path.Temp? && Holds(store.history, r.part.path, u.body) && !stored
                else r.meta.chunkSize == chunkSize && ForChunk(u, store.history, fetches, r.part, index)
      ensures !stored ==> store.records == old(store.records) && store.expired == old(store.expired) &&
                          Grows(old(store.files), store.files)
      ensures stored ==> r.ChunkFetched? && !r.fullObject && (base, r.meta) in fetches.objects
      ensures 0 <= index * chunkSize && asked == old(asked) + [ChunkQuery(base, requestHeader, index)]
      ensures r.ChunkFetched? ==> (r.part.cleanupPath <==> !stored)
      ensures r.ChunkFetched? && !r.fullObject ==>
                (stored <==> Storable(policy, origin(old(calls),
                                                     Query(base, Request("GET", ChunkHeader(requestHeader, index)))),
                                                       clock(old(ticks))))
      ensures stored ==>
                var reply := origin(old(calls), Query(base, Request("GET", ChunkHeader(requestHeader, index))));
                reply.Reply? && !Directives.Forbids(policy, reply.header)
      ensures stored && !store.expired ==> ChunkStored(store.State(), r.meta, index, r.part.path)
      ensures WillingOrigin(u, requestHeader) && index * chunkSize < |u.body| ==> r.ChunkFetched? && !r.fullObject
      ensures stored && !store.expired ==> !old(store.expired)
      ensures stored && !store.expired && SteadyOrigin(base, requestHeader, steady) ==>
                Settled(u, store.State(), requestHeader, steady)
      ensures stored && !store.expired && SteadyOrigin(base, requestHeader, steady) &&
              Settled(u, old(store.State()), requestHeader, steady) ==>
                Spares(old(store.State()), store.State(), fetches, index)
      ensures stored && !store.expired && ChangesVersion(old(store.State()), r.meta) ==>
                LosesBodies(old(store.State()), store.State(), RangeChunkPrefix(r.meta.key))
    {
      hide SteadyStored, NoChunks, Agrees, Spares, Settled, LogHolds, BarFree, Registered, RulePolicy, Storable,
           DecidedFor, ChunkStored, Good, Evolves, Loose, ValidatorsOf, RangeObjectKey, RangeVaryKey, StorageKey,
           Chunk, OwnsChunk, WillingOrigin, Usable, SanitizeChunk, HonestOrigin, ChunkHeader, IsObjectKey,
           ParseContentRange, Get, ParseVary, EffectiveVary, SteadyOrigin, LosesBodies, ChangesVersion,
           Directives.Forbids;
      ghost var st0 := store.State();
      stored := false;
      ghost var calls0, ticks0 := calls, ticks;
      var reply := FetchChunk(u, base, requestHeader, policy, index, steady);
      WillingUsable(u, requestHeader, calls0, index);
      if reply.ReplyFailed? {
        return ChunkFailed, false;
      }
      if reply.ReplyBypass? {
        return ChunkBypass, false;
      }
      var response, meta := reply.response, reply.meta;
      ghost var request := Request("GET", ChunkHeader(requestHeader, index));
      if !reply.fullObject {
        DecidedStorable(requestHeader, policy, origin(calls0, Query(base, request)), clock(ticks0), clock(ticks0 + 1),
                        reply);
      }
      ghost var st1 := store.State();
      LooseFacts(st1, response.bodyPath);
      var part := RangePart([], response.bodyPath, 0, response.contentLength, true);
      if !reply.fullObject && reply.decision.store {
        UsableFacts(origin(calls0, Query(base, request)));
        StorableAllowed(policy, origin(calls0, Query(base, request)), clock(ticks0));
        part := StoreFetched(u, base, requestHeader, policy, index, reply, request, ticks0);
        stored := true;
        SameRecordsChange(st0, st1, store.State(), meta, RangeChunkPrefix(meta.key));
        StoredSettles(u, st0, st1, store.State(), requestHeader, steady, meta, reply.decision.vary, fetches, index);
        EvolvesTransitive(base, st0, st1, store.State());
      }
      r := ChunkFetched(part, meta, reply.fullObject);
    }

    // Requests are only ever added.
    ghost predicate Asks(log: seq<Query>, log': seq<Query>) {
      log <= log'
    }

    // A stored reply of a steady origin settles the store, and spares what a settled
    // store has for other chunks.
    lemma StoredSettles(u: Url, st: StoreState, st1: StoreState, st': StoreState, requestHeader: Header, steady: Steady,
                        meta: ChunkObject,
                        names: seq<string>, fetches: Fetches, index: int)
      requires meta.key == StorageKey(digest, u.base, names, requestHeader) && st1.records == st.records &&
               Grows(st.files, st1.files)
      ensures !st'.expired && Agrees(u, st', meta.key, ValidatorsOf(meta.header), names) &&
              ObjectAt(st', RangeObjectKey(meta.key)) == Some(meta) &&
              names == steady.names && SteadyStored(requestHeader, steady, meta.header) ==>
                Settled(u, st', requestHeader, steady)
      ensures names == steady.names && SteadyStored(requestHeader, steady, meta.header) &&
              Settled(u, st, requestHeader, steady) ==>
                NoChunks(u.base, st1) || Agrees(u, st1, meta.key, ValidatorsOf(meta.header), names)
      ensures Spares(st1, st', fetches, index) ==> Spares(st, st', fetches, index)
    {
      hide StorageKey, ParseVary, EffectiveVary, RangeObjectKey, RangeVaryKey, OwnsChunk;
    }

    lemma WillingUsable(u: Url, requestHeader: Header, n: nat, index: nat)
      requires chunkSize > 0 && 0 <= index * chunkSize
      ensures WillingOrigin(u, requestHeader) && index * chunkSize < |u.body| ==>
                origin(n, Query(u.base, Request("GET", ChunkHeader(requestHeader, index)))).Reply? &&
                Usable(origin(n, Query(u.base, Request("GET", ChunkHeader(requestHeader, index)))))
    {
      hide Usable, ChunkHeader;
    }

    lemma UsableFacts(reply: FetchReply)
      ensures Usable(reply) ==> reply.Reply? && reply.status == 206
    {
    }

    // The stored part of one requested chunk, if it is there and valid.
    method LoadChunkPart(ghost u: Url, base: string, key: string, index: nat, resolved: Resolved, size: int)
      returns (part: Option<RangePart>)
      requires Inv(u) && base == u.base && IsObjectKey(base, key) && size == chunkSize && index * size < |u.body|
      modifies store, this`ticks
      ensures Inv(u) && Evolves(base, old(store.State()), store.State()) && store.files == old(store.files) &&
              store.history == old(store.history)
      ensures !store.expired ==> store.records == old(store.records) && !old(store.expired)
      ensures ticks >= old(ticks)
      ensures part.Some? ==> SlicedAt(u, store.history, fetches, part.value, resolved, index) &&
                             OnDisk(store.files, part.value)
      ensures part.None? <==> Unusable(store.State(), key, index, clock(old(ticks)))
      ensures part.Some? ==> ticks == old(ticks) + 1
    {
      hide LogHolds, BarFree, Good, Evolves, Lapse, RangeChunkKey, Chunk;
      GoodFacts(u, store.State(), fetches);
      ChunkIndexFits(u, index);
      LapseGood(store.world, u, store.State(), fetches);
      var chunk := store.GetChunk(RangeChunkKey(key, index));
      if chunk.None? {
        return None;
      }
      ChunkFacts(u, store.State(), fetches, key, index);
      var now := Now();
      if chunk.value.invalidAt <= now {
        return None;
      }
      part := Some(Sliced(RangePart([], chunk.value.bodyPath, 0, 0, false), resolved, index, size));
    }

    // The stored parts of the requested chunks, if every one of them is there and valid.
    method LoadChunkParts(ghost u: Url, base: string, key: string, indexes: seq<int>, resolved: Resolved, size: int)
      returns (parts: seq<RangePart>, complete: bool)
      requires Inv(u) && base == u.base && IsObjectKey(base, key) && size == chunkSize && InBody(u.body, resolved)
      requires indexes == ChunkIndexes(resolved, size)
      modifies store, this`ticks
      ensures Inv(u) && Evolves(base, old(store.State()), store.State()) && store.files == old(store.files)
      ensures !store.expired ==> store.records == old(store.records) && !old(store.expired)
      ensures ticks >= old(ticks)
      ensures !complete && !store.expired ==> AnyUnusable(clock, store.State(), key, indexes, old(ticks))
      ensures complete && !store.expired ==> AllUsable(clock, store.State(), key, indexes, old(ticks))
      ensures complete ==>
                AllReadable(store.history, parts) && Contents(store.history, parts) ==
                  u.body[resolved.start..resolved.end + 1] &&
                forall i :: 0 <= i < |parts| ==> OnDisk(store.files, parts[i])
    {
      hide LogHolds, BarFree, Good, Evolves, Lapse, RangeChunkKey, Chunk, Contents, AllReadable, Unusable, AllUsable;
      NoneUsed(store.State(), key, indexes, ticks);
      ghost var st0 := store.State();
      EvolvesReflexive(base, st0);
      DivMonotone(resolved.start, resolved.end, size);
      parts, complete := [], false;
      ghost var first := resolved.start / size;
      for n := 0 to |indexes|
        invariant Inv(u) && Evolves(base, st0, store.State()) && store.files == old(store.files)
        invariant !store.expired ==> store.records == old(store.records) && !old(store.expired)
        invariant ticks == old(ticks) + n
        invariant !store.expired ==> AllUsable(clock, store.State(), key, indexes[..n], old(ticks))
        invariant |parts| == n && SlicedParts(u, store.history, fetches, parts, resolved, first)
        invariant forall i :: 0 <= i < |parts| ==> OnDisk(store.files, parts[i])
      {
        ghost var st1, tick := store.State(), ticks;
        IndexBounds(resolved, indexes[n], size);
        var part := LoadChunkPart(u, base, key, indexes[n], resolved, size);
        EvolvesTransitive(base, st0, st1, store.State());
        if part.None? {
          assert Unusable(store.State(), key, indexes[n], clock(tick));
          return [], false;
        }
        assert indexes[n] == first + n;
        UsableStill(st1, store.State(), key, indexes, n, old(ticks));
        parts := parts + [part.value];
      }
      complete := true;
      assert indexes[..|indexes|] == indexes;
      PartsCoverRange(u, store.history, fetches, parts, resolved);
    }

    lemma NoneUsed(st: StoreState, key: string, indexes: seq<int>, from: nat)
      ensures AllUsable(clock, st, key, indexes[..0], from)
    {
    }

    lemma UsableStill(st: StoreState, st': StoreState, key: string, indexes: seq<int>, n: nat, from: nat)
      requires n < |indexes|
      ensures st'.records == st.records && AllUsable(clock, st, key, indexes[..n], from) &&
              !Unusable(st', key, indexes[n], clock(from + n)) ==>
                AllUsable(clock, st', key, indexes[..n + 1], from)
    {
      hide RangeChunkKey;
      if st'.records == st.records && AllUsable(clock, st, key, indexes[..n], from) &&
         !Unusable(st', key, indexes[n], clock(from + n)) {
        var next := indexes[..n + 1];
        forall m | 0 <= m < |next|
          ensures !Unusable(st', key, next[m], clock(from + m))
        {
          if m < n { assert !Unusable(st, key, indexes[..n][m], clock(from + m)); }
        }
      }
    }

    // The stored chunk, while its object is valid.
    method StoredChunk(ghost u: Url, base: string, key: string, meta: ChunkObject, index: nat)
      returns (part: Option<RangePart>)
      requires Inv(u) && base == u.base && IsObjectKey(base, key) && index <= MAX_INT64
      modifies store, this`ticks
      ensures Inv(u) && Evolves(base, old(store.State()), store.State()) && store.files == old(store.files)
      ensures !store.expired ==> store.records == old(store.records) && !old(store.expired)
      ensures ticks >= old(ticks) && store.State() == Lapse(store.world, old(store.State()))
      ensures part.Some? ==> ForChunk(u, store.history, fetches, part.value, index) && part.value.path in store.files
      ensures part.Some? <==> ChunkAt(store.State(), RangeChunkKey(key, index)).Some? &&
                              clock(old(ticks)) < meta.windows.invalidAt
    {
      hide LogHolds, BarFree, Good, Evolves, Lapse, RangeChunkKey, Chunk;
      LapseGood(store.world, u, store.State(), fetches);
      var chunk := store.GetChunk(RangeChunkKey(key, index));
      part := None;
      if chunk.Some? {
        ChunkFacts(u, store.State(), fetches, key, index);
        assert ticks == old(ticks);
        var now := Now();
        if now < meta.windows.invalidAt {
          part := Some(RangePart([], chunk.value.bodyPath, 0, chunk.value.size, false));
        }
      }
    }

    // Collects a part for one more index from the origin. The first reply may reveal
    // the length, and with it which indexes are needed.
    method FillFromOrigin(ghost u: Url, base: string, requestHeader: Header, policy: Policy, spec: RangeSpec,
                          index: nat, first: bool, before: Progress, ghost steady: Steady)
      returns (r: FillStep)
      requires Inv(u) && base == u.base && HonestOrigin(u) && WellFormed(spec) && RulePolicy(parseDuration, policy) &&
               index * chunkSize <= MAX_INT64 && index !in before.parts
      requires Consistent(u, spec, policy, store.history, fetches, before) && (!first ==> before.totalLength > 0)
      modifies store, this`ticks, this`calls, this`fetches, this`asked
      ensures Inv(u) && Evolves(base, old(store.State()), store.State()) && Learns(old(fetches), fetches) &&
              ticks >= old(ticks)
      ensures index * chunkSize >= 0 && asked == old(asked) + [ChunkQuery(base, requestHeader, index)]
      ensures r.FillServed? ==> Answers(u, spec, store.history, r.result) && r.result.state in {Miss, Bypassed} &&
                                forall i :: 0 <= i < |r.result.parts| ==> OnDisk(store.files, r.result.parts[i])
      ensures r.Filled? ==>
                Consistent(u, spec, policy, store.history, fetches, r.progress) && r.progress.totalLength > 0 &&
                r.progress.meta.Some? &&
                r.progress.meta.value.policyTag == policy.policyTag &&
                r.progress.parts.Keys == before.parts.Keys + {index as int}
      ensures r.Filled? && SteadyOrigin(base, requestHeader, steady) &&
              Settled(u, old(store.State()), requestHeader, steady) &&
              AllOnDisk(old(store.files), before.parts) && !store.expired ==>
                Settled(u, store.State(), requestHeader, steady) && AllOnDisk(store.files, r.progress.parts)
      ensures WillingOrigin(u, requestHeader) && index * chunkSize < |u.body| ==> r.FillServed? || r.Filled?
    {
      hide RulePolicy, BarFree, LogHolds, Good, Evolves, Chunk, SteadyOrigin, Settled, HonestOrigin, IsObjectKey,
           Correct206, ForChunk, Spares, Holds, WholeResult, Resolve, ChunkIndexes, AllOnDisk, AllForChunk,
           WillingOrigin, ChunkHeader;
      var totalLength, indexes := before.totalLength, before.indexes;
      ghost var st0, fetches0 := store.State(), fetches;
      ghost var kept;
      var fetched;
      fetched, kept := FetchAndMaybeStoreChunk(u, base, requestHeader, policy, index, steady);
      EvolvesFacts(base, st0, store.State());
      if fetched.ChunkFailed? {
        return FillError;
      }
      if fetched.ChunkBypass? {
        return FillBypass;
      }
      GoodFacts(u, store.State(), fetches);
      if fetched.fullObject {
        WholeResultAnswers(u, spec, store.history, fetched.meta, fetched.part);
        return FillServed(WholeResult(spec, fetched.meta, fetched.part));
      }
      if first && totalLength == 0 {
        totalLength := fetched.meta.totalLength;
        var resolved := Resolve(spec, totalLength);
        if resolved.None? {
          return FillServed(NotSatisfiable(Bypassed, totalLength));
        }
        indexes := RequestedChunkIndexes(resolved.value, fetched.meta.chunkSize);
      }
      PartsGrow(u, st0.history, fetches0, store.history, fetches, before.parts);
      SettledFacts(u, st0, store.State(), requestHeader, steady);
      if kept {
        PartsSpared(u, store.history, fetches, st0, store.State(), before.parts, index);
        } else { FilesKept(st0.files, store.files, before.parts);
      }
      PartAdded(u, store.history, fetches, store.files, before.parts, index, fetched.part);
      r := Filled(Progress(before.parts[index := fetched.part], fetched.meta.key, Some(fetched.meta), totalLength,
                           indexes));
    }

    // Collects a part for one more index, from the store or the origin.
    method FillChunk(ghost u: Url, base: string, requestHeader: Header, policy: Policy, spec: RangeSpec, index: nat,
                     first: bool, before: Progress, ghost steady: Steady)
      returns (r: FillStep)
      requires Inv(u) && base == u.base && HonestOrigin(u) && WellFormed(spec) && RulePolicy(parseDuration, policy) &&
               index * chunkSize <= MAX_INT64 && index !in before.parts
      requires Consistent(u, spec, policy, store.history, fetches, before) && (!first ==> before.totalLength > 0)
      modifies store, this`ticks, this`calls, this`fetches, this`asked
      ensures Inv(u) && Evolves(base, old(store.State()), store.State()) && Learns(old(fetches), fetches) &&
              ticks >= old(ticks)
      ensures index * chunkSize >= 0 &&
              if HasStored(old(store.State()), policy, before, index, clock(old(ticks))) then
                asked == old(asked) && r.Filled? && r.progress == before.(parts := r.progress.parts)
              else asked == old(asked) + [ChunkQuery(base, requestHeader, index)]
      ensures r.FillServed? ==> Answers(u, spec, store.history, r.result) && r.result.state in {Miss, Bypassed} &&
                                forall i :: 0 <= i < |r.result.parts| ==> OnDisk(store.files, r.result.parts[i])
      ensures r.Filled? ==>
                Consistent(u, spec, policy, store.history, fetches, r.progress) && r.progress.totalLength > 0 &&
                r.progress.meta.Some? &&
                r.progress.meta.value.policyTag == policy.policyTag &&
                r.progress.parts.Keys == before.parts.Keys + {index as int}
      ensures r.Filled? && SteadyOrigin(base, requestHeader, steady) &&
              Settled(u, old(store.State()), requestHeader, steady) &&
              AllOnDisk(old(store.files), before.parts) && !store.expired ==>
                Settled(u, store.State(), requestHeader, steady) && AllOnDisk(store.files, r.progress.parts)
      ensures WillingOrigin(u, requestHeader) && index * chunkSize < |u.body| ==> r.FillServed? || r.Filled?
    {
      hide RulePolicy, BarFree, LogHolds, Good, Evolves, SteadyOrigin, Settled, HonestOrigin, IsObjectKey, Answers,
           ForChunk, Resolve, ChunkIndexes, AllOnDisk, AllForChunk, WellFormed, WillingOrigin,
           ChunkHeader, RangeChunkKey, Lapse;
      ghost var st0, fetches0 := store.State(), fetches;
      IndexFits(index, chunkSize);
      EvolvesReflexive(base, st0);
      if before.meta.Some? && before.meta.value.policyTag == policy.policyTag {
        var stored := StoredChunk(u, base, before.key, before.meta.value, index);
        EvolvesFacts(base, st0, store.State());
        PartsGrow(u, st0.history, fetches0, store.history, fetches, before.parts);
        SettledFacts(u, st0, store.State(), requestHeader, steady);
        if stored.Some? {
          PartAdded(u, store.history, fetches, store.files, before.parts, index, stored.value);
          return Filled(before.(parts := before.parts[index := stored.value]));
        }
      }
      ghost var st1 := store.State();
      r := FillFromOrigin(u, base, requestHeader, policy, spec, index, first, before, steady);
      EvolvesTransitive(base, st0, st1, store.State());
      EvolvesFacts(base, st1, store.State());
    }

    // Collects a part for each of the given indexes in turn.
    method FillChunks(ghost u: Url, base: string, requestHeader: Header, policy: Policy, spec: RangeSpec,
                      iterated: seq<int>, start: Progress, ghost steady: Steady)
      returns (r: FillStep)
      requires Inv(u) && base == u.base && HonestOrigin(u) && WellFormed(spec) && RulePolicy(parseDuration, policy) &&
               iterated != []
      requires Ascending(iterated) && forall i :: 0 <= i < |iterated| ==>
                 0 <= iterated[i] && iterated[i] * chunkSize <= MAX_INT64
      requires Consistent(u, spec, policy, store.history, fetches, start) && start.parts == map[]
      modifies store, this`ticks, this`calls, this`fetches, this`asked
      ensures Inv(u) && Evolves(base, old(store.State()), store.State()) && Learns(old(fetches), fetches) &&
              AsksChunks(old(asked), asked, base, requestHeader, iterated) && ticks >= old(ticks)
      ensures r.FillServed? ==> Answers(u, spec, store.history, r.result) && r.result.state in {Miss, Bypassed} &&
                                forall i :: 0 <= i < |r.result.parts| ==> OnDisk(store.files, r.result.parts[i])
      ensures r.Filled? ==>
                Consistent(u, spec, policy, store.history, fetches, r.progress) && r.progress.totalLength > 0 &&
                r.progress.meta.Some? &&
                r.progress.meta.value.policyTag == policy.policyTag && forall i :: i in r.progress.parts <==>
                  i in iterated
      ensures r.Filled? && SteadyOrigin(base, requestHeader, steady) &&
              Settled(u, old(store.State()), requestHeader, steady) && !store.expired ==>
                AllOnDisk(store.files, r.progress.parts)
      ensures WillingOrigin(u, requestHeader) &&
              (forall i :: 0 <= i < |iterated| ==> iterated[i] * chunkSize < |u.body|) ==>
                r.FillServed? || r.Filled?
    {
      hide RulePolicy, BarFree, LogHolds, Good, Evolves, SteadyOrigin, Settled, HonestOrigin, Consistent, Answers,
           WellFormed, WillingOrigin, AsksChunks, HasStored, ChunkQuery;
      NothingAsked(asked, base, requestHeader, iterated);
      var progress := start;
      ghost var st0 := store.State();
      EvolvesReflexive(base, st0);
      for n := 0 to |iterated|
        invariant Inv(u) && Evolves(base, st0, store.State()) && Learns(old(fetches), fetches) &&
                  AsksChunks(old(asked), asked, base, requestHeader, iterated[..n]) && ticks >= old(ticks)
        invariant Consistent(u, spec, policy, store.history, fetches, progress) && forall i :: i in progress.parts <==>
                    i in iterated[..n]
        invariant n > 0 ==> progress.totalLength > 0 && progress.meta.Some? &&
                            progress.meta.value.policyTag == policy.policyTag
        invariant SteadyOrigin(base, requestHeader, steady) && Settled(u, st0, requestHeader, steady) &&
                  !store.expired ==>
                    Settled(u, store.State(), requestHeader, steady) && AllOnDisk(store.files, progress.parts)
      {
        ghost var st1, log1 := store.State(), asked;
        assert iterated[..n + 1] == iterated[..n] + [iterated[n]];
        var step := FillChunk(u, base, requestHeader, policy, spec, iterated[n], n == 0, progress, steady);
        EvolvesTransitive(base, st0, st1, store.State());
        EvolvesFacts(base, st1, store.State());
        AsksNext(old(asked), log1, asked, base, requestHeader, iterated, n);
        if !step.Filled? {
          AsksMore(old(asked), asked, base, requestHeader, iterated, n + 1);
          return step;
        }
        progress := step.progress;
      }
      assert iterated[..|iterated|] == iterated;
      r := Filled(progress);
    }

    lemma NothingAsked(log: seq<Query>, base: string, requestHeader: Header, indexes: seq<int>)
      ensures chunkSize > 0 ==> AsksChunks(log, log, base, requestHeader, indexes[..0])
    {
    }

    lemma AsksNone(log: seq<Query>, base: string, requestHeader: Header, indexes: seq<int>)
      ensures chunkSize > 0 ==> AsksChunks(log, log, base, requestHeader, indexes)
    {
    }

    lemma AsksMore(log: seq<Query>, log': seq<Query>, base: string, requestHeader: Header, indexes: seq<int>, n: nat)
      requires n <= |indexes| && AsksChunks(log, log', base, requestHeader, indexes[..n])
      ensures AsksChunks(log, log', base, requestHeader, indexes)
    {
      hide AsksFor;
      assert |indexes[..n]| == n;
      forall m | |log| <= m < |log'|
        ensures AsksOne(log'[m], base, requestHeader, indexes)
      {
        var i :| 0 <= i < |indexes[..n]| && AsksFor(log'[m], base, requestHeader, indexes[..n][i]);
        assert indexes[i] == indexes[..n][i];
      }
    }

    predicate CanRevalidate(policy: Policy, meta: ChunkObject) {
      policy.mode == FollowOrigin && HasValidators(meta.header)
    }

    lemma RevalidatesIff(policy: Policy, meta: ChunkObject)
      ensures CanRevalidate(policy, meta) <==>
              policy.mode == FollowOrigin &&
              !(Get(meta.header, "Etag") == "" && Get(meta.header, "Last-Modified") == "")
    {
    }

    // The stored object is one of this policy.
    ghost predicate OfPolicy(o: Occasion) {
      var meta := StoredObject(o.st, o.base, o.header);
      meta.Some? && meta.value.policyTag == o.policy.policyTag
    }

    // It is fresh.
    ghost predicate ObjectFresh(o: Occasion) {
      OfPolicy(o) && clock(o.tick) < StoredObject(o.st, o.base, o.header).value.windows.freshUntil
    }

    // The object is no longer fresh, and policy and validators let the origin be asked.
    ghost predicate Due(policy: Policy, meta: ChunkObject, now: int) {
      meta.windows.freshUntil <= now && CanRevalidate(policy, meta)
    }

    // It is asked with the n-th request and renews the object.
    ghost predicate Renews(policy: Policy, base: string, h: Header, meta: ChunkObject, now: int, n: nat) {
      Due(policy, meta, now) && RenewalFields(meta, HeadReply(n, base, h, meta)).Some?
    }

    // It does so with fields that the policy does not let be stored.
    ghost predicate RenewsInVain(policy: Policy, base: string, h: Header, meta: ChunkObject, now: int, n: nat,
                                 tick: nat) {
      Renews(policy, base, h, meta, now, n) && Refuses(policy, meta, HeadReply(n, base, h, meta), tick)
    }

    // The origin is asked about the stored object and fails to answer.
    ghost predicate OriginFails(o: Occasion) {
      OfPolicy(o) &&
      var meta := StoredObject(o.st, o.base, o.header).value;
      Due(o.policy, meta, clock(o.tick)) && HeadReply(o.call, o.base, o.header, meta).FetchFailed?
    }

    // It renews the stored object.
    ghost predicate OriginRenews(o: Occasion) {
      OfPolicy(o) && Renews(o.policy, o.base, o.header, StoredObject(o.st, o.base, o.header).value, clock(o.tick),
                            o.call)
    }

    // Its renewal is refused.
    ghost predicate Refused(o: Occasion) {
      OfPolicy(o) && RenewsInVain(o.policy, o.base, o.header, StoredObject(o.st, o.base, o.header).value, clock(o.tick),
                                  o.call, o.tick + 1)
    }

    // It is stale, within the window of an optimistic policy, and has not been renewed.
    ghost predicate ObjectStale(o: Occasion) {
      OfPolicy(o) && !OriginRenews(o) && o.policy.optimistic &&
      var windows := StoredObject(o.st, o.base, o.header).value.windows;
      windows.freshUntil <= clock(o.tick) < windows.staleUntil
    }

    // The engine has a fresh full response of this policy.
    ghost predicate FullFresh(o: Occasion) {
      var entry := FullEntry(o.st, o.base, o.header);
      entry.Some? && entry.value.policyTag == o.policy.policyTag && clock(o.tick) < entry.value.windows.freshUntil &&
      entry.value.response.contentLength > 0
    }

    // The occasion on which the chunks are looked at, after the full response: two
    // lookups later, and a clock reading later if that was one of this policy.
    ghost function ForChunks(o: Occasion): Occasion {
      var entry := FullEntry(o.st, o.base, o.header);
      o.(st := AfterLookup(o.st),
         tick := if entry.Some? && entry.value.policyTag == o.policy.policyTag then o.tick + 1 else o.tick)
    }

    // The n-th request asked the origin about a stored object of this policy, and the
    // object was renewed from the answer, at the given reading.
    ghost predicate RenewedAt(o: Occasion, log: seq<Query>, objects: map<(string, ChunkObject), Dating>, n: nat,
                              meta: ChunkObject, tick: nat) {
      n < |log| && log[n] == Query(o.base, Request("HEAD", ValidationHeader(o.header, meta))) &&
      (o.base, meta) in objects && meta.policyTag == o.policy.policyTag &&
      var reply := HeadReply(n, o.base, o.header, meta);
      RenewalFields(meta, reply).Some? && !Refuses(o.policy, meta, reply, tick)
    }

    // That happened while this request was handled.
    ghost predicate RenewedMeanwhile(o: Occasion, log: seq<Query>, ticks: nat,
                                     objects: map<(string, ChunkObject), Dating>) {
      exists n, meta, tick :: o.call <= n && o.tick <= tick < ticks && RenewedAt(o, log, objects, n, meta, tick)
    }

    lemma RenewedGrows(o: Occasion, log: seq<Query>, ticks: nat, fetches: Fetches, log': seq<Query>, ticks': nat,
                       fetches': Fetches)
      requires RenewedMeanwhile(o, log, ticks, fetches.objects) && Asks(log, log') && ticks <= ticks' &&
               Learns(fetches, fetches')
      ensures RenewedMeanwhile(o, log', ticks', fetches'.objects)
    {
      hide HeadReply, RenewalFields, Refuses;
      var n, meta, tick :| o.call <= n && o.tick <= tick < ticks && RenewedAt(o, log, fetches.objects, n, meta, tick);
      assert log'[n] == log[n];
      assert RenewedAt(o, log', fetches'.objects, n, meta, tick);
    }

    lemma RenewedFrom(o: Occasion, o': Occasion, log: seq<Query>, ticks: nat,
                      objects: map<(string, ChunkObject), Dating>)
      requires RenewedMeanwhile(o, log, ticks, objects) && o'.call <= o.call && o'.tick <= o.tick
      requires o'.base == o.base && o'.header == o.header && o'.policy == o.policy
      ensures RenewedMeanwhile(o', log, ticks, objects)
    {
      hide HeadReply, RenewalFields, Refuses;
      var n, meta, tick :| o.call <= n && o.tick <= tick < ticks && RenewedAt(o, log, objects, n, meta, tick);
      assert RenewedAt(o', log, objects, n, meta, tick);
    }

    // The stored parts of the range under a renewed or stored object.
    method ServeStored(ghost u: Url, base: string, spec: RangeSpec, key: string, meta: ChunkObject, state: State)
      returns (r: Option<RangeResult>)
      requires Inv(u) && base == u.base && IsObjectKey(base, key) && WellFormed(spec)
      requires meta.totalLength == |u.body| && meta.chunkSize == chunkSize && Resolve(spec, |u.body|).Some?
      modifies store, this`ticks
      ensures Inv(u) && Evolves(base, old(store.State()), store.State()) &&
              (!store.expired ==> store.records == old(store.records) && !old(store.expired))
      ensures ticks >= old(ticks)
      ensures r.Some? && !store.expired ==> AllUsable(clock, store.State(), key,
                                                      ChunkIndexes(Resolve(spec, |u.body|).value, chunkSize),
                                                      old(ticks))
      ensures r.None? && !store.expired ==> AnyUnusable(clock, store.State(), key,
                                                        ChunkIndexes(Resolve(spec, |u.body|).value, chunkSize),
                                                          old(ticks))
      ensures r.Some? ==> r.value.state == state && Correct206(u, spec, store.history, r.value) &&
                          forall i :: 0 <= i < |r.value.parts| ==> OnDisk(store.files, r.value.parts[i])
    {
      hide LogHolds, BarFree, Good, Evolves, Contents, AllReadable, Correct206, PartialHeader, OnDisk, AnyUnusable,
           AllUsable;
      GoodFacts(u, store.State(), fetches);
      ResolveMeetsRfc(spec, |u.body|);
      var resolved := Resolve(spec, meta.totalLength).value;
      var indexes := RequestedChunkIndexes(resolved, meta.chunkSize);
      var parts, complete := LoadChunkParts(u, base, key, indexes, resolved, meta.chunkSize);
      if !complete {
        return None;
      }
      ChunkResultAnswers(u, spec, store.history, meta, parts, state);
      r := Some(ChunkResult(meta, parts, resolved, state));
    }

    // Collects, orders and cuts the parts of a range that is not wholly stored.
    method FillParts(ghost u: Url, base: string, requestHeader: Header, policy: Policy, spec: RangeSpec,
                     iterated: seq<int>, start: Progress, ghost steady: Steady)
      returns (r: RangeOutcome)
      requires Inv(u) && base == u.base && HonestOrigin(u) && WellFormed(spec) && RulePolicy(parseDuration, policy) &&
               iterated != []
      requires Ascending(iterated) && forall i :: 0 <= i < |iterated| ==>
                 0 <= iterated[i] && iterated[i] * chunkSize <= MAX_INT64
      requires Consistent(u, spec, policy, store.history, fetches, start) && start.parts == map[]
      modifies store, this`ticks, this`calls, this`fetches, this`asked
      ensures Inv(u) && Evolves(base, old(store.State()), store.State()) && Learns(old(fetches), fetches) &&
              AsksChunks(old(asked), asked, base, requestHeader, iterated) && ticks >= old(ticks) &&
              !r.Crashed?
      ensures r.Served? ==> Answers(u, spec, store.history, r.result) && r.result.state in {Miss, Bypassed}
      ensures r.Served? && SteadyOrigin(base, requestHeader, steady) &&
              Settled(u, old(store.State()), requestHeader, steady) && !store.expired ==>
                forall i :: 0 <= i < |r.result.parts| ==> OnDisk(store.files, r.result.parts[i])
      ensures WillingOrigin(u, requestHeader) && InsideAndEnough(u, spec, iterated) ==> r.Served?
    {
      hide RulePolicy, BarFree, LogHolds, WillingOrigin, Good, Evolves, SteadyOrigin, Settled, HonestOrigin, AllOnDisk,
           AllForChunk, Contents, AllReadable, Correct206, PartialHeader, OnDisk, Ascending, AsksChunks;
      var step := FillChunks(u, base, requestHeader, policy, spec, iterated, start, steady);
      if step.FillError? {
        return UpstreamError;
      }
      if step.FillBypass? {
        return NotServed;
      }
      if step.FillServed? {
        return Served(step.result);
      }
      GoodFacts(u, store.State(), fetches);
      ResolveMeetsRfc(spec, |u.body|);
      var progress := step.progress;
      var resolved := Resolve(spec, progress.totalLength).value;
      var ordered := OrderParts(progress.parts, progress.indexes, resolved, progress.meta.value.chunkSize);
      if ordered.None? {
        return NotServed;
      }
      OrderedCover(u, store.history, fetches, store.files, progress.parts, ordered.value, resolved);
      ChunkResultAnswers(u, spec, store.history, progress.meta.value, ordered.value, Miss);
      r := Served(ChunkResult(progress.meta.value, ordered.value, resolved, Miss));
    }

    // The renewal before a fill: none while the object is fresh or cannot be asked about;
    // otherwise one HEAD request, after which the fill goes on with the object as it was,
    // if the reply renews nothing, with the zero object, if its renewal is refused, and
    // with the renewed one, if some of its chunks are not there to serve the range at once.
    ghost predicate FillRenewal(u: Url, o: Occasion, key: string, meta: ChunkObject, log: seq<Query>,
                                log': seq<Query>, st': StoreState, r: RenewStep) {
      if !Due(o.policy, meta, clock(o.tick)) then log' == log && r == Proceed(key, meta, meta.totalLength)
      else
        var reply := HeadReply(o.call, o.base, o.header, meta);
        log' == log + [ConditionalQuery(o.base, o.header, meta)] &&
        (r.RenewFailed? <==> reply.FetchFailed?) &&
        (reply.Reply? && RenewalFields(meta, reply).None? ==> r == Proceed(key, meta, meta.totalLength)) &&
        (RenewalFields(meta, reply).Some? ==> RenewedOn(u, o, meta, reply, st', r))
    }

    ghost predicate RenewedOn(u: Url, o: Occasion, meta: ChunkObject, reply: FetchReply, st': StoreState, r: RenewStep)
      requires RenewalFields(meta, reply).Some?
    {
      if Refuses(o.policy, meta, reply, o.tick + 1) then r.Proceed? && r.meta == ZERO_OBJECT && r.totalLength == 0
      else
        r.RenewServed? ||
        (r.Proceed? && r.totalLength == |u.body| && r.meta.policyTag == o.policy.policyTag && r.meta.key == r.key &&
         r.meta.header == SanitizeChunk(RenewalFields(meta, reply).value) &&
         Lacks(st', r.key, Resolve(o.spec, |u.body|), o.tick))
    }

    lemma ServesRenewed(u: Url, o: Occasion, meta: ChunkObject, reply: FetchReply, st': StoreState, r: RenewStep)
      requires RenewalFields(meta, reply).Some? && !Refuses(o.policy, meta, reply, o.tick + 1) && r.RenewServed?
      ensures RenewedOn(u, o, meta, reply, st', r)
    {
    }

    lemma GoesOnRenewed(u: Url, o: Occasion, meta: ChunkObject, reply: FetchReply, st': StoreState, r: RenewStep)
      requires RenewalFields(meta, reply).Some? && r.Proceed? && r.totalLength == r.meta.totalLength
      requires if Refuses(o.policy, meta, reply, o.tick + 1) then r.meta == ZERO_OBJECT
               else ObjectOk(u, RangeObjectKey(r.key), r.meta) && r.meta.key == r.key &&
                    r.meta.policyTag == o.policy.policyTag &&
                    r.meta.header == SanitizeChunk(RenewalFields(meta, reply).value) &&
                    Lacks(st', r.key, Resolve(o.spec, |u.body|), o.tick)
      ensures RenewedOn(u, o, meta, reply, st', r)
    {
      hide Refuses, Lacks, SanitizeChunk, Resolve;
    }

    // Some chunk of the range could not be used, if nothing expired.
    ghost predicate Lacks(st: StoreState, key: string, range: Option<Resolved>, from: nat) {
      st.expired ||
      (chunkSize > 0 && range.Some? && AnyUnusable(clock, st, key, ChunkIndexes(range.value, chunkSize), from))
    }

    ghost function ConditionalQuery(base: string, requestHeader: Header, meta: ChunkObject): Query {
      Query(base, Request("HEAD", ValidationHeader(requestHeader, meta)))
    }

    // The renewal a fill tries first when the object is no longer fresh. A refused
    // renewal makes the length unknown again.
    method RenewForFill(ghost u: Url, base: string, requestHeader: Header, policy: Policy, spec: RangeSpec, key: string,
                        meta: ChunkObject, ghost steady: Steady)
      returns (r: RenewStep)
      requires Inv(u) && base == u.base && WellFormed(spec) && Resolve(spec, |u.body|).Some? &&
               RulePolicy(parseDuration, policy)
      requires IsObjectKey(base, key) && ObjectOk(u, RangeObjectKey(key), meta) && meta.policyTag == policy.policyTag
      requires (base, meta) in fetches.objects
      requires IsStoredAt(store.State(), base, requestHeader, key, meta)
      modifies store, this`ticks, this`calls, this`fetches, this`asked
      ensures Inv(u) && Evolves(base, old(store.State()), store.State()) && Learns(old(fetches), fetches)
      ensures ticks >= old(ticks)
      ensures FillRenewal(u, Occasion(base, policy, requestHeader, spec, old(store.State()), old(ticks), old(calls)),
                          key, meta, old(asked), asked, store.State(), r)
      ensures WillingOrigin(u, requestHeader) ==> !r.RenewFailed?
      ensures r.RenewServed? ==> r.result.state == Hit && Correct206(u, spec, store.history, r.result) &&
                                 forall i :: 0 <= i < |r.result.parts| ==> OnDisk(store.files, r.result.parts[i])
      ensures r.RenewServed? ==>
                RenewedMeanwhile(Occasion(base, policy, requestHeader, spec, old(store.State()), old(ticks),
                                          old(calls)), asked, ticks, fetches.objects)
      ensures r.Proceed? ==>
                r.totalLength == r.meta.totalLength &&
                ((r.totalLength == 0 && r.meta.policyTag == "") ||
                 (r.totalLength == |u.body| && IsObjectKey(base, r.key) && r.meta.chunkSize == chunkSize))
      ensures r.Proceed? && !store.expired && SteadyOrigin(base, requestHeader, steady) &&
              Settled(u, old(store.State()), requestHeader, steady) ==>
                Settled(u, store.State(), requestHeader, steady)
    {
      hide LogHolds, BarFree, Good, Evolves, Correct206, OnDisk, LookupKey, RangeObjectKey, RangeVaryKey,
           DecideChunkMetadata, HasValidators, Resolve, WellFormed, IsObjectKey, RulePolicy, Settled, SteadyOrigin,
           RenewedMeanwhile, HeadReply, RenewalFields, TouchDue, ChunksUntil, KnownObject,
           SanitizeChunk, IsStoredAt, ParseAge, Get, ValidationHeader, ParseContentRange, Contents, AnyUnusable,
           AllUsable, Lacks, ChunkIndexes, RenewedOn;
      ghost var st0, calls0 := store.State(), calls;
      ghost var o := Occasion(base, policy, requestHeader, spec, st0, ticks, calls);
      BodyNotEmpty(u, st0, fetches);
      EvolvesReflexive(base, st0);
      var now := Now();
      if now < meta.windows.freshUntil || !CanRevalidate(policy, meta) {
        return Proceed(key, meta, meta.totalLength);
      }
      ghost var tick := ticks;
      var renewal := RevalidateChunkObject(u, base, requestHeader, policy, key, meta, steady);
      if renewal.RevalidationFailed? {
        WillingAnswers(u, requestHeader, calls0, meta);
        return RenewFailed;
      }
      if renewal.NotRenewed? {
        SettledFacts(u, st0, store.State(), requestHeader, steady);
        return Proceed(key, meta, meta.totalLength);
      }
      if renewal.meta.totalLength > 0 {
        RenewedNow(o, asked, ticks, fetches.objects, calls0, meta, tick);
        ghost var st1, ticks1 := store.State(), ticks;
        var served := ServeStored(u, base, spec, renewal.key, renewal.meta, Hit);
        EvolvesTransitive(base, st0, st1, store.State());
        EvolvesFacts(base, st1, store.State());
        SettledFacts(u, st1, store.State(), requestHeader, steady);
        RenewedGrows(o, asked, ticks1, fetches, asked, ticks, fetches);
        if served.Some? {
          r := RenewServed(served.value);
          ServesRenewed(u, o, meta, HeadReply(calls0, base, requestHeader, meta), store.State(), r);
          return;
        }
        LacksEarlier(store.State(), renewal.key, Resolve(spec, |u.body|), tick, ticks1);
      }
      r := Proceed(renewal.key, renewal.meta, renewal.meta.totalLength);
      GoesOnRenewed(u, o, meta, HeadReply(calls0, base, requestHeader, meta), store.State(), r);
    }

    lemma LacksEarlier(st: StoreState, key: string, range: Option<Resolved>, from: nat, later: nat)
      requires 0 < from <= later && chunkSize > 0 && range.Some?
      requires !st.expired ==> AnyUnusable(clock, st, key, ChunkIndexes(range.value, chunkSize), later)
      ensures Lacks(st, key, range, from - 1)
    {
      hide Unusable, ChunkIndexes;
    }

    lemma WillingAnswers(u: Url, requestHeader: Header, n: nat, meta: ChunkObject)
      ensures WillingOrigin(u, requestHeader) ==> HeadReply(n, u.base, requestHeader, meta).Reply?
    {
    }

    lemma RenewedNow(o: Occasion, log: seq<Query>, ticks: nat, objects: map<(string, ChunkObject), Dating>, n: nat,
                     meta: ChunkObject, tick: nat)
      requires o.call <= n && o.tick <= tick < ticks && RenewedAt(o, log, objects, n, meta, tick)
      ensures RenewedMeanwhile(o, log, ticks, objects)
    {
    }

    // What a fill asks for: every chunk of the range if the length is known; only the
    // asked chunks, or the first one of an open-ended range, if not.
    method PlanFill(spec: RangeSpec, meta: Option<ChunkObject>) returns (r: FillPlan)
      requires WellFormed(spec) && chunkSize > 0 && (meta.Some? ==> 0 <= meta.value.totalLength <= MAX_INT64)
      ensures var total := if meta.Some? then meta.value.totalLength else 0;
              (r.PlanBypass? <==> spec.suffix && total == 0) &&
              (r.PlanUnsatisfiable? <==> total > 0 && Resolve(spec, total).None?) &&
              (r.Plan? ==>
                 r.totalLength == total && r.indexes != [] && Ascending(r.indexes) &&
                 (forall i :: 0 <= i < |r.indexes| ==> 0 <= r.indexes[i] && r.indexes[i] * chunkSize <= MAX_INT64) &&
                 (total > 0 ==> Resolve(spec, total).Some? &&
                                r.indexes == ChunkIndexes(Resolve(spec, total).value, chunkSize)) &&
                 (total == 0 ==> r.indexes == ChunkIndexes(Asked(spec), chunkSize)))
    {
      hide LogHolds, BarFree, ChunkIndexes, Ascending;
      var totalLength := if meta.Some? && meta.value.totalLength > 0 then meta.value.totalLength else 0;
      if spec.suffix && totalLength == 0 {
        return PlanBypass;
      }
      var resolved := Resolve(spec, totalLength);
      if resolved.None? && totalLength > 0 {
        return PlanUnsatisfiable;
      }
      if totalLength > 0 { ResolveMeetsRfc(spec, totalLength); }
      var indexes := RequestedChunkIndexesKnown(spec, resolved, totalLength, chunkSize);
      // Never empty, so that the fill does not give up here.
      IndexesFit(resolved.value, chunkSize);
      r := Plan(totalLength, indexes);
    }

    lemma SuffixAsksNothing(u: Url, spec: RangeSpec)
      ensures spec.suffix ==> !AsksEnough(u, spec)
    {
    }

    lemma EnoughPlanned(u: Url, spec: RangeSpec, plan: FillPlan)
      requires u.chunkSize == chunkSize > 0 && 0 < |u.body| && WellFormed(spec) && plan.Plan?
      requires if plan.totalLength > 0 then plan.totalLength == |u.body| && Resolve(spec, |u.body|).Some? &&
                                            plan.indexes == ChunkIndexes(Resolve(spec, |u.body|).value, chunkSize)
               else plan.indexes == ChunkIndexes(Asked(spec), chunkSize)
      ensures plan.totalLength > 0 || AsksEnough(u, spec) ==> InsideAndEnough(u, spec, plan.indexes)
    {
      hide LogHolds, BarFree, InsideAndEnough;
      if plan.totalLength > 0 { NeededIsEnough(u, spec); }
    }

    // What a fill serves: a correct answer, and a hit only after a renewal. All body
    // files are there after a renewal, and for a miss if the origin is steady.
    ghost predicate FillAnswers(u: Url, o: Occasion, st': StoreState, log: seq<Query>, ticks: nat,
                                objects: map<(string, ChunkObject), Dating>,
                                r: RangeOutcome, steady: Steady) {
      r.Served? ==>
        Answers(u, o.spec, st'.history, r.result) && r.result.state in {Miss, Bypassed, Hit} &&
        (r.result.state == Hit ==> RenewedMeanwhile(o, log, ticks, objects)) &&
        (r.result.state == Hit || (!st'.expired && SteadyOrigin(o.base, o.header, steady) &&
                                   Settled(u, o.st, o.header, steady)) ==>
           forall i :: 0 <= i < |r.result.parts| ==> OnDisk(st'.files, r.result.parts[i]))
    }

    // A fill asks about an object of its policy that is due first, and then for chunks of
    // the planned indexes.
    ghost predicate FillAsks(o: Occasion, meta: Option<ChunkObject>, indexes: seq<int>, log: seq<Query>,
                             log': seq<Query>) {
      AsksChunks(if meta.Some? && meta.value.policyTag == o.policy.policyTag && Due(o.policy, meta.value, clock(o.tick))
                 then log + [ConditionalQuery(o.base, o.header, meta.value)] else log,
                 log', o.base, o.header, indexes)
    }

    lemma FillOnlyAsks(o: Occasion, meta: Option<ChunkObject>, indexes: seq<int>, log: seq<Query>, log': seq<Query>)
      requires FillAsks(o, meta, indexes, log, log')
      ensures Asks(log, log')
    {
      hide AsksOne, Due, ConditionalQuery;
    }

    // Fills a planned range: after a renewal, if the object is one of this policy.
    method FillPlanned(ghost u: Url, base: string, requestHeader: Header, policy: Policy, spec: RangeSpec, key: string,
                       meta: Option<ChunkObject>, plan: FillPlan, ghost steady: Steady)
      returns (r: RangeOutcome)
      requires Inv(u) && base == u.base && HonestOrigin(u) && WellFormed(spec) && RulePolicy(parseDuration, policy) &&
               plan.Plan? && plan.indexes != []
      requires Ascending(plan.indexes) && forall i :: 0 <= i < |plan.indexes| ==>
                 0 <= plan.indexes[i] && plan.indexes[i] * chunkSize <= MAX_INT64
      requires if meta.Some? then plan.totalLength == |u.body| && Resolve(spec, |u.body|).Some? &&
                                  plan.indexes == ChunkIndexes(Resolve(spec, |u.body|).value, chunkSize)
               else plan.totalLength == 0
      requires meta.Some? ==> IsObjectKey(base, key) && ObjectOk(u, RangeObjectKey(key), meta.value) &&
                              (base, meta.value) in fetches.objects
      requires meta.Some? ==> IsStoredAt(store.State(), base, requestHeader, key, meta.value)
      modifies store, this`ticks, this`calls, this`fetches, this`asked
      ensures Inv(u) && Evolves(base, old(store.State()), store.State()) && Learns(old(fetches), fetches) && !r.Crashed?
      ensures ticks >= old(ticks)
      ensures FillAsks(Occasion(base, policy, requestHeader, spec, old(store.State()), old(ticks), old(calls)), meta,
                       plan.indexes, old(asked), asked)
      ensures WillingOrigin(u, requestHeader) && InsideAndEnough(u, spec, plan.indexes) ==> r.Served?
      ensures FillAnswers(u, Occasion(base, policy, requestHeader, spec, old(store.State()), old(ticks), old(calls)),
                          store.State(), asked, ticks, fetches.objects, r, steady)
    {
      hide LogHolds, BarFree, WillingOrigin, InsideAndEnough, Good, Evolves, SteadyOrigin, Settled, HonestOrigin,
           Correct206, OnDisk, Ascending, LookupKey, RangeObjectKey, RangeVaryKey, DecideChunkMetadata, HasValidators,
           ResponseKey, ChunkIndexes, Resolve, WellFormed, IsObjectKey, RulePolicy, RenewedMeanwhile,
           RenewedOn, HeadReply, RenewalFields, CanRevalidate, ConditionalQuery, AsksChunks, Refuses;
      ghost var st0 := store.State();
      EvolvesReflexive(base, st0);
      GoodFacts(u, st0, fetches);
      RulePolicyFacts(parseDuration, policy);
      var at, current, totalLength := key, meta, plan.totalLength;
      if meta.Some? && meta.value.policyTag == policy.policyTag {
        var step := RenewForFill(u, base, requestHeader, policy, spec, key, meta.value, steady);
        AsksNone(asked, base, requestHeader, plan.indexes);
        if step.RenewFailed? {
          return UpstreamError;
        }
        if step.RenewServed? {
          return Served(step.result);
        }
        at, current, totalLength := step.key, Some(step.meta), step.totalLength;
      }
      ghost var st1 := store.State();
      EvolvesFacts(base, st0, st1);
      r := FillParts(u, base, requestHeader, policy, spec, plan.indexes,
                     Progress(map[], at, current, totalLength, plan.indexes), steady);
      EvolvesTransitive(base, st0, st1, store.State());
      EvolvesFacts(base, st1, store.State());
    }

    // Fills a range from the origin, revalidating the object first when it is no longer fresh.
    method FillRange(ghost u: Url, base: string, requestHeader: Header, policy: Policy, spec: RangeSpec,
                     ghost steady: Steady)
      returns (r: RangeOutcome)
      requires Inv(u) && base == u.base && HonestOrigin(u) && WellFormed(spec) && RulePolicy(parseDuration, policy)
      modifies store, this`ticks, this`calls, this`fetches, this`asked
      ensures Inv(u) && Evolves(base, old(store.State()), store.State()) && Learns(old(fetches), fetches) && !r.Crashed?
      ensures Asks(old(asked), asked) && ticks >= old(ticks)
      ensures WillingOrigin(u, requestHeader) &&
              (AsksEnough(u, spec) || (!store.expired && KnownObject(old(store.State()), base, requestHeader))) ==>
                r.Served?
      ensures FillAnswers(u, Occasion(base, policy, requestHeader, spec, old(store.State()), old(ticks), old(calls)),
                          store.State(), asked, ticks, fetches.objects, r, steady)
    {
      hide LogHolds, BarFree, WillingOrigin, AsksEnough, InsideAndEnough, Good, Evolves, SteadyOrigin, Settled,
           HonestOrigin, Correct206, OnDisk, Ascending, LookupKey, StoredKey, AfterLookup, RangeObjectKey,
           RangeVaryKey, ResponseKey, ChunkIndexes, Resolve, WellFormed, IsObjectKey, RulePolicy, RenewedMeanwhile,
           FillAsks;
      ghost var st0 := store.State();
      ghost var o := Occasion(base, policy, requestHeader, spec, st0, ticks, calls);
      var key, meta := LookupChunkObject(u, base, requestHeader);
      ghost var st1 := store.State();
      EvolvesFacts(base, st0, st1);
      SettledFacts(u, st0, st1, requestHeader, steady);
      GoodFacts(u, st1, fetches);
      SuffixAsksNothing(u, spec);
      var plan := PlanFill(spec, meta);
      if plan.PlanBypass? {
        return NotServed;
      }
      if plan.PlanUnsatisfiable? {
        return Served(NotSatisfiable(Bypassed, meta.value.totalLength));
      }
      EnoughPlanned(u, spec, plan);
      ghost var o1, log1 := o.(st := st1, tick := ticks, call := calls), asked;
      r := FillPlanned(u, base, requestHeader, policy, spec, key, meta, plan, steady);
      FillOnlyAsks(o1, meta, plan.indexes, log1, asked);
      EvolvesTransitive(base, st0, st1, store.State());
      EvolvesFacts(base, st1, store.State());
      RenewalsFrom(o, o.(st := st1), asked, ticks, fetches.objects);
    }

    lemma RenewalsFrom(o: Occasion, o': Occasion, log: seq<Query>, ticks: nat,
                       objects: map<(string, ChunkObject), Dating>)
      requires o.call <= o'.call && o.tick <= o'.tick && o.base == o'.base && o.header == o'.header &&
               o.policy == o'.policy
      ensures RenewedMeanwhile(o', log, ticks, objects) ==> RenewedMeanwhile(o, log, ticks, objects)
    {
      if RenewedMeanwhile(o', log, ticks, objects) { RenewedFrom(o', o, log, ticks, objects); }
    }

    // The engine's entry for the URL, as a lookup for these fields finds it.
    method LookupRegularEntry(ghost u: Url, base: string, requestHeader: Header) returns (entry: Option<Entry>)
      requires Inv(u) && base == u.base
      modifies store
      ensures Inv(u) && Evolves(base, old(store.State()), store.State())
      ensures !store.expired ==>
                store.records == old(store.records) && !old(store.expired) &&
                entry == EntryAt(old(store.State()), LookupKey(digest, base, requestHeader,
                                                               VaryAt(old(store.State()), VaryKey(base))))
      ensures store.State() == AfterLookup(old(store.State())) &&
              entry == FullEntry(old(store.State()), base, requestHeader)
      ensures entry.Some? && entry.value.response.contentLength > 0 ==>
                var response := entry.value.response;
                response.contentLength == |u.body| &&
                if response.body != [] then response.body == u.body
                  else Holds(store.history, response.bodyPath, u.body) && response.bodyPath in store.files
    {
      hide LogHolds, BarFree, Good, Evolves, Lapse, LookupKey, VaryKey, IsObjectKey;
      ghost var st0 := store.State();
      LapseGood(store.world, u, st0, fetches);
      var names := store.GetVary(VaryKey(base));
      ghost var st1 := store.State();
      var key := LookupKey(digest, base, requestHeader, names);
      KeysAreObjectKeys(digest, base, [], requestHeader, names);
      LapseGood(store.world, u, st1, fetches);
      entry := store.GetEntry(key);
      EvolvesTransitive(base, st0, st1, store.State());
      LapsedEntries(store.world, st0, key);
      LapsedEntries(store.world, st1, key);
      if entry.Some? { EntryFacts(u, store.State(), fetches, key); }
    }

    // A fresh full response stored by the engine serves ranges too.
    method LookupFreshFullObject(ghost u: Url, base: string, requestHeader: Header, policy: Policy, spec: RangeSpec)
      returns (r: Option<RangeResult>)
      requires Inv(u) && base == u.base && WellFormed(spec)
      modifies store, this`ticks
      ensures Inv(u) && Evolves(base, old(store.State()), store.State())
      ensures var o := Occasion(base, policy, requestHeader, spec, old(store.State()), old(ticks), calls);
              store.State() == ForChunks(o).st && (r.Some? <==> FullFresh(o)) &&
              (r.None? ==> ticks == ForChunks(o).tick) &&
              (r.Some? ==> r.value == FullObjectResult(spec, FullEntry(o.st, base, requestHeader).value.response))
      ensures !store.expired ==> store.records == old(store.records) && store.expired == old(store.expired)
      ensures r.Some? ==> Answers(u, spec, store.history, r.value) && forall i :: 0 <= i < |r.value.parts| ==>
                OnDisk(store.files, r.value.parts[i])
      ensures r.Some? ==> r.value.state == Hit
      ensures ticks >= old(ticks)
    {
      hide LogHolds, BarFree, Good, Evolves, LookupKey, VaryKey, IsObjectKey, Correct206, FullObjectResult, Answers,
           OnDisk, WellFormed, AfterLookup, FullEntry;
      r := None;
      var entry := LookupRegularEntry(u, base, requestHeader);
      if entry.None? || entry.value.policyTag != policy.policyTag {
        return;
      }
      var now := Now();
      if entry.value.windows.freshUntil <= now || entry.value.response.contentLength <= 0 {
        return;
      }
      GoodFacts(u, store.State(), fetches);
      FullObjectAnswers(u, spec, store.history, store.files, entry.value.response);
      r := Some(FullObjectResult(spec, entry.value.response));
    }

    // Answers from the stored chunks of an object, if they are all there and the object
    // is renewed, fresh, or stale within an optimistic window.
    method ServeIfUsable(ghost u: Url, base: string, policy: Policy, spec: RangeSpec, key: string, meta: ChunkObject,
                         renewed: bool, now: int) returns (r: Option<RangeResult>)
      requires Inv(u) && base == u.base && IsObjectKey(base, key) && WellFormed(spec)
      requires meta.totalLength == |u.body| && meta.chunkSize == chunkSize && Resolve(spec, |u.body|).Some?
      modifies store, this`ticks
      ensures Inv(u) && Evolves(base, old(store.State()), store.State()) &&
              (!store.expired ==> store.records == old(store.records) && !old(store.expired))
      ensures ticks >= old(ticks)
      ensures r.Some? && !store.expired ==>
                AllUsable(clock, store.State(), key, ChunkIndexes(Resolve(spec, |u.body|).value, chunkSize),
                          old(ticks))
      ensures r.Some? ==> Correct206(u, spec, store.history, r.value) && forall i :: 0 <= i < |r.value.parts| ==>
                OnDisk(store.files, r.value.parts[i])
      ensures r.Some? ==>
                if renewed || now < meta.windows.freshUntil then r.value.state == Hit
                else r.value.state == Stale && policy.optimistic && now < meta.windows.staleUntil
      ensures r.None? && !store.expired && (renewed || now < meta.windows.freshUntil ||
                                            (policy.optimistic && now < meta.windows.staleUntil)) ==>
                AnyUnusable(clock, store.State(), key, ChunkIndexes(Resolve(spec, |u.body|).value, chunkSize),
                            old(ticks))
    {
      hide LogHolds, BarFree, Good, Evolves, OnDisk, PartialHeader, AnyUnusable, AllUsable;
      r := ServeStored(u, base, spec, key, meta, Hit);
      if r.Some? && !renewed && meta.windows.freshUntil <= now {
        if policy.optimistic && now < meta.windows.staleUntil {
          r := Some(r.value.(state := Stale));
        } else {
          r := None;
        }
      }
    }

    // Renews an object that is no longer fresh, if the policy and its fields allow that.
    method RenewIfStale(ghost u: Url, base: string, requestHeader: Header, policy: Policy, key: string,
                        meta: ChunkObject, now: int, ghost steady: Steady)
      returns (r: CurrentObject)
      requires Inv(u) && base == u.base && IsObjectKey(base, key) && ObjectOk(u, RangeObjectKey(key), meta) &&
               RulePolicy(parseDuration, policy)
      requires (base, meta) in fetches.objects
      requires IsStoredAt(store.State(), base, requestHeader, key, meta)
      modifies store, this`ticks, this`calls, this`fetches, this`asked
      ensures Inv(u) && Evolves(base, old(store.State()), store.State()) && Learns(old(fetches), fetches)
      ensures Asks(old(asked), asked) && ticks >= old(ticks)
      ensures (r.RenewalFailed? <==> Due(policy, meta, now) &&
                                     HeadReply(old(calls), base, requestHeader, meta).FetchFailed?) &&
              (r.Current? && r.renewed <==> Renews(policy, base, requestHeader, meta, now, old(calls))) &&
              (r.Current? && r.renewed ==>
                 asked == old(asked) + [Query(base, Request("HEAD", ValidationHeader(requestHeader, meta)))] &&
                 ticks > old(ticks) &&
                 if RenewsInVain(policy, base, requestHeader, meta, now, old(calls), old(ticks)) then
                   r.meta == ZERO_OBJECT
                 else IsObjectKey(base, r.key) && r.meta.totalLength == |u.body| && r.meta.chunkSize == chunkSize &&
                      (!store.expired ==> KnownObject(store.State(), base, requestHeader))) &&
              (r.Current? && !r.renewed ==>
                 r.key == key && r.meta == meta && r.now == now && store.records == old(store.records) &&
                 store.expired == old(store.expired))
      ensures !store.expired && SteadyOrigin(base, requestHeader, steady) &&
              Settled(u, old(store.State()), requestHeader, steady) ==>
                Settled(u, store.State(), requestHeader, steady)
    {
      hide LogHolds, BarFree, Good, Evolves, LookupKey, RangeObjectKey, RangeVaryKey, IsObjectKey, DecideChunkMetadata,
           HasValidators, RulePolicy, Settled, SteadyOrigin, HeadReply, KnownObject, RenewalFields, TouchDue,
           ChunksUntil, SanitizeChunk, IsStoredAt;
      EvolvesReflexive(base, store.State());
      r := Current(key, meta, false, now);
      if meta.windows.freshUntil <= now && CanRevalidate(policy, meta) {
        var renewal := RevalidateChunkObject(u, base, requestHeader, policy, key, meta, steady);
        if renewal.RevalidationFailed? {
          return RenewalFailed;
        }
        if renewal.Renewed? {
          var later := Now();
          r := Current(renewal.key, renewal.meta, true, later);
        }
      }
    }

    // Answers from the stored chunks of the current object. The zero object of a refused
    // renewal has a chunk size of zero, which no index can be divided by.
    method AnswerFrom(ghost u: Url, base: string, policy: Policy, spec: RangeSpec, current: CurrentObject,
                      ghost refused: bool) returns (r: Option<RangeOutcome>)
      requires Inv(u) && base == u.base && WellFormed(spec) && current.Current?
      requires if refused then current.meta == ZERO_OBJECT
               else IsObjectKey(base, current.key) && current.meta.totalLength == |u.body| &&
                    current.meta.chunkSize == chunkSize
      modifies store, this`ticks
      ensures Inv(u) && Evolves(base, old(store.State()), store.State()) &&
              (!store.expired ==> store.records == old(store.records) && !old(store.expired))
      ensures ticks >= old(ticks)
      ensures r.Some? && r.value.Served? && r.value.result.state != Bypassed && !store.expired ==>
                Resolve(spec, |u.body|).Some? &&
                AllUsable(clock, store.State(), current.key,
                          ChunkIndexes(Resolve(spec, |u.body|).value, chunkSize), old(ticks))
      ensures r.Some? ==> r.value.Served? || r.value.Crashed?
      ensures r == Some(Crashed) <==> refused && !spec.suffix
      ensures r == Some(Served(NotSatisfiable(Bypassed, 0))) <==> refused && spec.suffix
      ensures r.Some? && r.value.Served? && !refused ==>
                Answers(u, spec, store.history, r.value.result) && forall i :: 0 <= i < |r.value.result.parts| ==>
                  OnDisk(store.files, r.value.result.parts[i])
      ensures r.Some? && r.value.Served? && r.value.result.state != Bypassed ==>
                if current.renewed || current.now < current.meta.windows.freshUntil then r.value.result.state == Hit
                else r.value.result.state == Stale && policy.optimistic && current.now < current.meta.windows.staleUntil
      ensures r.None? && !store.expired && (current.renewed || current.now < current.meta.windows.freshUntil ||
                                            (policy.optimistic && current.now < current.meta.windows.staleUntil)) ==>
                Resolve(spec, |u.body|).Some? && AnyUnusable(clock, store.State(), current.key,
                                                             ChunkIndexes(Resolve(spec, |u.body|).value, chunkSize),
                                                               old(ticks))
    {
      hide LogHolds, BarFree, Good, Evolves, Correct206, WellFormed, IsObjectKey, OnDisk, NotSatisfiable, AnyUnusable,
           AllUsable;
      EvolvesReflexive(base, store.State());
      GoodFacts(u, store.State(), fetches);
      UnsatisfiableDiffers(|u.body|);
      r := None;
      var resolved := Resolve(spec, current.meta.totalLength);
      if resolved.None? {
        r := Some(Served(NotSatisfiable(Bypassed, current.meta.totalLength)));
        return;
      }
      if current.meta.chunkSize == 0 {
        r := Some(Crashed);
        return;
      }
      var served := ServeIfUsable(u, base, policy, spec, current.key, current.meta, current.renewed, current.now);
      if served.Some? {
        r := Some(Served(served.value));
      }
    }

    // What the stored chunks of an object of this policy come to, if anything, judged at
    // the given time: after a renewal in vain a division by zero or a wrong 416, and
    // otherwise a correct answer if it is renewed, fresh, or stale within its window.
    ghost predicate ObjectServes(u: Url, o: Occasion, meta: ChunkObject, now: int, st': StoreState, log: seq<Query>,
                                 ticks: nat,
                                 objects: map<(string, ChunkObject), Dating>, r: Option<RangeOutcome>) {
      var inVain := RenewsInVain(o.policy, o.base, o.header, meta, now, o.call, o.tick);
      (r.Some? ==> !r.value.NotServed?) &&
      (r == Some(UpstreamError) <==> Due(o.policy, meta, now) &&
                                     HeadReply(o.call, o.base, o.header, meta).FetchFailed?) &&
      (r == Some(Crashed) <==> inVain && !o.spec.suffix) &&
      (r == Some(Served(NotSatisfiable(Bypassed, 0))) <==> inVain && o.spec.suffix) &&
      (r.Some? && r.value.Served? && !inVain ==>
         Answers(u, o.spec, st'.history, r.value.result) && r.value.result.state in {Hit, Stale, Bypassed} &&
         (r.value.result.state == Hit ==> now < meta.windows.freshUntil || RenewedMeanwhile(o, log, ticks, objects)) &&
         (r.value.result.state == Stale ==>
            !Renews(o.policy, o.base, o.header, meta, now, o.call) && o.policy.optimistic &&
            meta.windows.freshUntil <= now < meta.windows.staleUntil) &&
         forall i :: 0 <= i < |r.value.result.parts| ==> OnDisk(st'.files, r.value.result.parts[i]))
    }

    lemma ObjectServesChunks(u: Url, o: Occasion, st: StoreState, meta: ChunkObject, st': StoreState, log: seq<Query>,
                             ticks: nat,
                             objects: map<(string, ChunkObject), Dating>, r: Option<RangeOutcome>)
      requires StoredObject(o.st, o.base, o.header) == Some(meta) && meta.policyTag == o.policy.policyTag
      requires ObjectServes(u, o.(st := st, tick := o.tick + 1), meta, clock(o.tick), st', log, ticks, objects, r)
      ensures ChunksServe(u, o, st', log, ticks, objects, r)
    {
      hide Answers, RenewedMeanwhile, OnDisk, NotSatisfiable, RenewsInVain, Renews, HeadReply, StoredObject, Due;
      RenewalsFrom(o, o.(st := st, tick := o.tick + 1), log, ticks, objects);
    }

    // Answers from the stored chunks of an object of this policy, first renewing it when
    // it is no longer fresh.
    method ServeObject(ghost u: Url, base: string, requestHeader: Header, policy: Policy, spec: RangeSpec, key: string,
                       meta: ChunkObject, now: int,
                       ghost steady: Steady)
      returns (r: Option<RangeOutcome>)
      requires Inv(u) && base == u.base && WellFormed(spec) && RulePolicy(parseDuration, policy)
      requires IsObjectKey(base, key) && ObjectOk(u, RangeObjectKey(key), meta) && (base, meta) in fetches.objects &&
               meta.policyTag == policy.policyTag
      requires IsStoredAt(store.State(), base, requestHeader, key, meta)
      modifies store, this`ticks, this`calls, this`fetches, this`asked
      ensures Inv(u) && Evolves(base, old(store.State()), store.State()) && Learns(old(fetches), fetches)
      ensures Asks(old(asked), asked) && ticks >= old(ticks)
      ensures ObjectServes(u, Occasion(base, policy, requestHeader, spec, old(store.State()), old(ticks), old(calls)),
                           meta, now, store.State(), asked, ticks, fetches.objects, r)
      ensures WillingOrigin(u, requestHeader) && r.Some? ==> !r.value.UpstreamError?
      ensures r.None? && !store.expired && KnownObject(old(store.State()), base, requestHeader) ==>
                KnownObject(store.State(), base, requestHeader)
      ensures r.None? && !store.expired && SteadyOrigin(base, requestHeader, steady) &&
              Settled(u, old(store.State()), requestHeader, steady) ==>
                Settled(u, store.State(), requestHeader, steady)
    {
      hide LogHolds, BarFree, KnownObject, WillingOrigin, AnyUnusable, Good, Evolves, LookupKey, RangeObjectKey,
           RangeVaryKey, WellFormed, IsObjectKey, DecideChunkMetadata, HasValidators, OnDisk, NotSatisfiable, Answers,
           Refuses, HeadReply, RulePolicy, Settled, SteadyOrigin, RenewedMeanwhile, RenewalFields, CanRevalidate,
           ValidationHeader, AllUsable, Resolve, ChunkIndexes, IsStoredAt;
      ghost var st1, calls0, tick := store.State(), calls, ticks;
      ghost var o := Occasion(base, policy, requestHeader, spec, st1, ticks, calls);
      WillingAnswers(u, requestHeader, calls0, meta);
      var step := RenewIfStale(u, base, requestHeader, policy, key, meta, now, steady);
      if step.RenewalFailed? {
        return Some(UpstreamError);
      }
      ghost var st2, ticks2, refused := store.State(), ticks,
          RenewsInVain(policy, base, requestHeader, meta, now, calls0, tick);
      if step.renewed && !refused { RenewedNow(o, asked, ticks, fetches.objects, calls0, meta, tick); }
      KnownIf(st1, st2, base, requestHeader);
      r := AnswerFrom(u, base, policy, spec, step, refused);
      EvolvesTransitive(base, st1, st2, store.State());
      KnownIf(st2, store.State(), base, requestHeader);
      SettledFacts(u, st2, store.State(), requestHeader, steady);
      EvolvesFacts(base, st2, store.State());
      if step.renewed && !refused { RenewedGrows(o, asked, ticks2, fetches, asked, ticks, fetches); }
    }

    // What the stored chunks come to, if anything: after a refused renewal a division by
    // zero or a wrong 416, and otherwise a correct answer from an object that is renewed,
    // fresh, or stale within its window.
    ghost predicate ChunksServe(u: Url, o: Occasion, st': StoreState, log: seq<Query>, ticks: nat,
                                objects: map<(string, ChunkObject), Dating>,
                                r: Option<RangeOutcome>) {
      (r == Some(UpstreamError) <==> OriginFails(o)) && (r == Some(Crashed) <==> Refused(o) && !o.spec.suffix) &&
      (r == Some(Served(NotSatisfiable(Bypassed, 0))) <==> Refused(o) && o.spec.suffix) &&
      (r.Some? ==> !r.value.NotServed?) &&
      (r.Some? && r.value.Served? && !Refused(o) ==>
         Answers(u, o.spec, st'.history, r.value.result) && r.value.result.state in {Hit, Stale, Bypassed} &&
         (r.value.result.state == Hit ==> ObjectFresh(o) || RenewedMeanwhile(o, log, ticks, objects)) &&
         (r.value.result.state == Stale ==> ObjectStale(o)) &&
         forall i :: 0 <= i < |r.value.result.parts| ==> OnDisk(st'.files, r.value.result.parts[i]))
    }

    // Answers from the stored chunks, first renewing an object that is no longer fresh.
    // A refused renewal leaves the zero object, whose chunk size no index can be divided by.
    method ServeChunks(ghost u: Url, base: string, requestHeader: Header, policy: Policy, spec: RangeSpec,
                       ghost steady: Steady)
      returns (r: Option<RangeOutcome>)
      requires Inv(u) && base == u.base && WellFormed(spec) && RulePolicy(parseDuration, policy)
      modifies store, this`ticks, this`calls, this`fetches, this`asked
      ensures Inv(u) && Evolves(base, old(store.State()), store.State()) && Learns(old(fetches), fetches)
      ensures Asks(old(asked), asked) && ticks >= old(ticks)
      ensures ChunksServe(u, Occasion(base, policy, requestHeader, spec, old(store.State()), old(ticks), old(calls)),
                          store.State(), asked, ticks, fetches.objects, r)
      ensures WillingOrigin(u, requestHeader) && r.Some? ==> !r.value.UpstreamError?
      ensures r.None? && !store.expired && KnownObject(old(store.State()), base, requestHeader) ==>
                KnownObject(store.State(), base, requestHeader)
      ensures r.None? && !store.expired && SteadyOrigin(base, requestHeader, steady) &&
              Settled(u, old(store.State()), requestHeader, steady) ==>
                Settled(u, store.State(), requestHeader, steady)
    {
      hide LogHolds, BarFree, KnownObject, WillingOrigin, AnyUnusable, Good, Evolves, LookupKey, StoredKey,
           AfterLookup, RangeObjectKey, RangeVaryKey, Correct206, WellFormed, IsObjectKey, DecideChunkMetadata,
           HasValidators, OnDisk, NotSatisfiable, Answers, RenewsInVain, Renews, HeadReply, RulePolicy, Settled,
           SteadyOrigin, RenewedMeanwhile, ObjectServes;
      r := None;
      ghost var st0 := store.State();
      ghost var o := Occasion(base, policy, requestHeader, spec, st0, ticks, calls);
      var key, meta := LookupChunkObject(u, base, requestHeader);
      ghost var st1 := store.State();
      EvolvesFacts(base, st0, st1);
      KnownIf(st0, st1, base, requestHeader);
      KnownIs(st1, base, requestHeader, key);
      SettledFacts(u, st0, st1, requestHeader, steady);
      var now := Now();
      if meta.None? || meta.value.policyTag != policy.policyTag {
        return;
      }
      r := ServeObject(u, base, requestHeader, policy, spec, key, meta.value, now, steady);
      EvolvesTransitive(base, st0, st1, store.State());
      EvolvesFacts(base, st1, store.State());
      ObjectServesChunks(u, o, st1, meta.value, store.State(), asked, ticks, fetches.objects, r);
    }

    // A stored object answers at the given reading: it is of the same policy settings,
    // and its windows are counted from its last store or renewal.
    ghost predicate Accounted(o: Occasion, log: seq<Query>, objects: map<(string, ChunkObject), Dating>) {
      OfPolicy(o) &&
      var meta := StoredObject(o.st, o.base, o.header).value;
      (o.base, meta) in objects &&
      var d := objects[(o.base, meta)];
      SameSettings(d.policy, o.policy) && meta.windows.freshUntil == FreshFrom(d) + DecisionOf(log, d).ttl &&
      (WithinLimits(DecisionOf(log, d)) && clock(d.tick + 2) <= clock(d.tick + 3) <= clock(d.tick + 4) ==>
         meta.windows.staleUntil <= meta.windows.invalidAt)
    }

    // The clauses of HandledWell that say why an answer may come from the store.
    ghost predicate Justified(o: Occasion, log: seq<Query>, ticks: nat, objects: map<(string, ChunkObject), Dating>,
                              state: State) {
      var c := ForChunks(o);
      match state
      case Hit => FullFresh(o) || (ObjectFresh(c) && Accounted(c, log, objects)) ||
      RenewedMeanwhile(o, log, ticks, objects)
      case Stale => ObjectStale(c) && Accounted(c, log, objects)
      case _ => true
    }

    // What handling a range comes to, given the store and the log before and after:
    // exactly when it crashes, names a wrong length, or fails to reach the origin about
    // a stored object; and otherwise a correct answer that the store or the origin
    // justifies, all of it on disk for hits, stale answers, and misses of a steady origin.
    ghost predicate HandledWell(u: Url, o: Occasion, st': StoreState, log: seq<Query>, ticks: nat,
                                objects: map<(string, ChunkObject), Dating>,
                                r: RangeOutcome, steady: Steady)
      requires WellFormed(o.spec)
    {
      var refused := !FullFresh(o) && Refused(ForChunks(o));
      (FullFresh(o) ==> r == Served(FullObjectResult(o.spec, FullEntry(o.st, o.base, o.header).value.response))) &&
      (!FullFresh(o) && OriginFails(ForChunks(o)) ==> r.UpstreamError?) &&
      (r.Crashed? <==> refused && !o.spec.suffix) &&
      (r == Served(NotSatisfiable(Bypassed, 0)) <==> refused && o.spec.suffix) &&
      (r.Served? && !refused ==>
         Answers(u, o.spec, st'.history, r.result) && Justified(o, log, ticks, objects, r.result.state) &&
         (r.result.state in {Hit, Stale} || (!st'.expired && SteadyOrigin(o.base, o.header, steady) &&
                                             Settled(u, o.st, o.header, steady)) ==>
            forall i :: 0 <= i < |r.result.parts| ==> OnDisk(st'.files, r.result.parts[i]))) &&
      (WillingOrigin(u, o.header) && (AsksEnough(u, o.spec) ||
                                      (!st'.expired && KnownObject(o.st, u.base, o.header))) ==>
                                        r.Served? || r.Crashed?)
    }

    // The chunks' share of HandledWell, on the occasion they are looked at.
    ghost predicate ChunksHandled(u: Url, c: Occasion, st': StoreState, log: seq<Query>, ticks: nat,
                                  objects: map<(string, ChunkObject), Dating>,
                                  r: RangeOutcome, steady: Steady) {
      (OriginFails(c) ==> r.UpstreamError?) &&
      (r.Crashed? <==> Refused(c) && !c.spec.suffix) &&
      (r == Served(NotSatisfiable(Bypassed, 0)) <==> Refused(c) && c.spec.suffix) &&
      (r.Served? && !Refused(c) ==>
         Answers(u, c.spec, st'.history, r.result) &&
         (r.result.state == Hit ==> ObjectFresh(c) || RenewedMeanwhile(c, log, ticks, objects)) &&
         (r.result.state == Stale ==> ObjectStale(c)) &&
         (r.result.state in {Hit, Stale} || (!st'.expired && SteadyOrigin(c.base, c.header, steady) &&
                                             Settled(u, c.st, c.header, steady)) ==>
            forall i :: 0 <= i < |r.result.parts| ==> OnDisk(st'.files, r.result.parts[i]))) &&
      (WillingOrigin(u, c.header) && (AsksEnough(u, c.spec) ||
                                      (!st'.expired && KnownObject(c.st, u.base, c.header))) ==>
                                        r.Served? || r.Crashed?)
    }

    // The stored chunks first, then a fill.
    method HandleChunked(ghost u: Url, base: string, h: Header, policy: Policy, spec: RangeSpec, ghost steady: Steady)
      returns (r: RangeOutcome)
      requires Inv(u) && HonestOrigin(u) && u.base == base && WellFormed(spec) && RulePolicy(parseDuration, policy)
      modifies store, this`ticks, this`calls, this`fetches, this`asked
      ensures Inv(u) && Evolves(u.base, old(store.State()), store.State()) && Learns(old(fetches), fetches)
      ensures Asks(old(asked), asked) && ticks >= old(ticks)
      ensures ChunksHandled(u, Occasion(base, policy, h, spec, old(store.State()), old(ticks), old(calls)),
                            store.State(), asked, ticks, fetches.objects, r, steady)
    {
      hide LogHolds, BarFree, Good, Evolves, HonestOrigin, SteadyOrigin, Settled, LookupKey, RangeObjectKey,
           RangeVaryKey, Correct206, WellFormed, IsObjectKey, OnDisk, NotSatisfiable, Refused, Answers, WillingOrigin,
           AsksEnough, RulePolicy, RenewedMeanwhile, ObjectFresh, ObjectStale, OriginFails, KnownObject;
      ghost var st0 := store.State();
      ghost var o := Occasion(base, policy, h, spec, st0, ticks, calls);
      var served := ServeChunks(u, base, h, policy, spec, steady);
      ghost var st1, ticks1, calls1 := store.State(), ticks, calls;
      EvolvesFacts(base, st0, st1);
      if served.Some? {
        return served.value;
      }
      r := FillRange(u, base, h, policy, spec, steady);
      EvolvesTransitive(base, st0, st1, store.State());
      EvolvesFacts(base, st1, store.State());
      GoodFacts(u, store.State(), fetches);
      if r.Served? { AnswersNamesLength(u, spec, store.history, r.result); }
      RenewalsFrom(o, o.(st := st1, tick := ticks1, call := calls1), asked, ticks, fetches.objects);
    }

    // What goes before does not matter, as long as it leaves the records alone.
    lemma HandledFrom(u: Url, o: Occasion, st': StoreState, log: seq<Query>, ticks: nat,
                      objects: map<(string, ChunkObject), Dating>, r: RangeOutcome, steady: Steady)
      requires WellFormed(o.spec) && ChunksHandled(u, ForChunks(o), st', log, ticks, objects, r, steady) &&
               !FullFresh(o) && (!st'.expired ==> ForChunks(o).st.records == o.st.records)
      requires OfPolicy(ForChunks(o)) ==> Accounted(ForChunks(o), log, objects)
      ensures HandledWell(u, o, st', log, ticks, objects, r, steady)
    {
      hide Refused, Answers, SteadyOrigin, Settled, WillingOrigin, AsksEnough, KnownObject, NotSatisfiable, OnDisk,
           RenewedMeanwhile, Accounted, AfterLookup, FullFresh, FullEntry, OriginFails;
      SettledFacts(u, o.st, ForChunks(o).st, o.header, steady);
      KnownIf(o.st, ForChunks(o).st, u.base, o.header);
      RenewalsFrom(o, ForChunks(o), log, ticks, objects);
    }

    // A fresh full response is a good way to handle the request.
    lemma FullHandledWell(u: Url, o: Occasion, st': StoreState, log: seq<Query>, ticks: nat,
                          objects: map<(string, ChunkObject), Dating>, steady: Steady)
      requires 0 < |u.body| && FullFresh(o) && WellFormed(o.spec)
      requires var result := FullObjectResult(o.spec, FullEntry(o.st, o.base, o.header).value.response);
               Answers(u, o.spec, st'.history, result) && result.state == Hit && forall i :: 0 <= i < |result.parts| ==>
                 OnDisk(st'.files, result.parts[i])
      ensures HandledWell(u, o, st', log, ticks, objects,
                          Served(FullObjectResult(o.spec, FullEntry(o.st, o.base, o.header).value.response)), steady)
    {
      hide Refused, Answers, SteadyOrigin, Settled, WillingOrigin, AsksEnough, KnownObject, NotSatisfiable, OnDisk,
           FullObjectResult, FullEntry, ForChunks, RenewedMeanwhile;
      AnswersNamesLength(u, o.spec, st'.history, FullObjectResult(o.spec,
                                                                  FullEntry(o.st, o.base, o.header).value.response));
    }

    // An object that a lookup finds has been dated.
    lemma StoredAccounted(u: Url, c: Occasion, st': StoreState, log: seq<Query>, ticks: nat, fetches: Fetches,
                          fetches': Fetches)
      requires Good(u, c.st, fetches) && c.base == u.base && Learns(fetches, fetches') &&
               LogHolds(log, ticks, fetches'.objects)
      requires BarFree(parseDuration) && RulePolicy(parseDuration, c.policy)
      ensures OfPolicy(c) ==> Accounted(c, log, fetches'.objects)
    {
      hide Good, LogHolds, RulePolicy, BarFree, Dated, DecisionOf, LookupKey, Lapse, RangeObjectKey, RangeVaryKey,
           SameSettings;
      if OfPolicy(c) {
        LapseGood(store.world, u, c.st, fetches);
        LapseGood(store.world, u, Lapse(store.world, c.st), fetches);
        KeysAreObjectKeys(digest, c.base, [], c.header, VaryAt(Lapse(store.world, c.st), RangeVaryKey(c.base)));
        ObjectFacts(u, AfterLookup(c.st), fetches, StoredKey(c.st, c.base, c.header));
        ObjectWindows(log, ticks, fetches'.objects, c.base, StoredObject(c.st, c.base, c.header).value, c.policy);
      }
    }

    // Handles a range request: a fresh full response of the engine first, then the
    // stored chunks, then a fill. A stale answer is followed by a fill in the
    // background, which is a run of FillRange of its own.
    method Handle(ghost u: Url, path: string, rawQuery: string, request: Request, policy: Policy, ghost steady: Steady)
      returns (r: RangeOutcome)
      requires Inv(u) && HonestOrigin(u) && u.base == BaseKey(policy.siteId, path, rawQuery) &&
               RulePolicy(parseDuration, policy)
      modifies store, this`ticks, this`calls, this`fetches, this`asked
      ensures Inv(u) && Evolves(u.base, old(store.State()), store.State()) && Learns(old(fetches), fetches)
      ensures Asks(old(asked), asked) && ticks >= old(ticks)
      ensures match PrepareRange(request, policy)
              case None => r.NotServed? && store.State() == old(store.State())
              case Some((h, spec)) =>
                HandledWell(u, Occasion(u.base, policy, h, spec, old(store.State()), old(ticks), old(calls)),
                            store.State(), asked, ticks, fetches.objects, r, steady)
    {
      hide LogHolds, BarFree, HandledWell, ChunksHandled, Accounted, Good, Evolves, HonestOrigin, WellFormed, OnDisk,
           Answers, FullFresh, RulePolicy, FullObjectResult, OfPolicy, ForChunks;
      ghost var st0, fetches0 := store.State(), fetches;
      EvolvesReflexive(u.base, st0);
      var prepared := PrepareRange(request, policy);
      if prepared.None? {
        return NotServed;
      }
      var h, spec := prepared.value.0, prepared.value.1;
      var base := BaseKey(policy.siteId, path, rawQuery);
      ghost var o := Occasion(base, policy, h, spec, st0, ticks, calls);
      var full := LookupFreshFullObject(u, base, h, policy, spec);
      ghost var st1 := store.State();
      GoodFacts(u, st1, fetches);
      if full.Some? {
        FullHandledWell(u, o, st1, asked, ticks, fetches.objects, steady);
        return Served(full.value);
      }
      ForChunksFacts(o);
      r := HandleChunked(u, base, h, policy, spec, steady);
      EvolvesTransitive(base, st0, st1, store.State());
      EvolvesFacts(base, st1, store.State());
      StoredAccounted(u, ForChunks(o), store.State(), asked, ticks, fetches0, fetches);
      HandledFrom(u, o, store.State(), asked, ticks, fetches.objects, r, steady);
    }

    lemma ForChunksFacts(o: Occasion)
      ensures var c := ForChunks(o);
              c == Occasion(o.base, o.policy, o.header, o.spec, c.st, c.tick, o.call) && o.tick <= c.tick
    {
    }

    // What sending the parts of a handled request comes to.
    lemma SentExactly(u: Url, o: Occasion, st': StoreState, log: seq<Query>, ticks: nat,
                      objects: map<(string, ChunkObject), Dating>, r: RangeOutcome, steady: Steady)
      requires WellFormed(o.spec) && HandledWell(u, o, st', log, ticks, objects, r, steady) && r.Served? &&
               Grows(st'.files, st'.history)
      ensures AllReadable(st'.history, r.result.parts)
      ensures r.result.status == 206 ==> SentSelection(u, o.spec, r.result, WriteParts(st'.files, r.result.parts).0,
                                                       WriteParts(st'.files, r.result.parts).1)
      ensures r.result.status == 206 &&
              (r.result.state in {Hit, Stale} || (!st'.expired && SteadyOrigin(o.base, o.header, steady) &&
                                                  Settled(u, o.st, o.header, steady))) ==>
                WriteParts(st'.files, r.result.parts).1
      ensures r.result.status != 206 ==>
                r.result.status == 416 && r.result.parts == [] &&
                (Resolve(o.spec, |u.body|).None? || (!FullFresh(o) && Refused(ForChunks(o)) && o.spec.suffix))
    {
      hide SteadyOrigin, Settled, Refused, ParseContentRange, Resolve, FullFresh, FullObjectResult, Justified,
           OriginFails, WillingOrigin, AsksEnough, KnownObject, FullEntry, ForChunks;
      WriteExact(st'.history, st'.files, r.result.parts);
    }

    // What answering a range request comes to: exactly when it crashes; a justified answer,
    // of which a prefix of the selected bytes is sent, and all of them for hits, stale
    // answers, and misses of a steady origin; or a 416, for a range that selects nothing
    // or on a refused renewal.
    ghost predicate RespondedWell(u: Url, o: Occasion, st': StoreState, log: seq<Query>, ticks: nat,
                                  objects: map<(string, ChunkObject), Dating>,
                                  steady: Steady, r: RangeOutcome, written: seq<Byte>, complete: bool) {
      var refused := !FullFresh(o) && Refused(ForChunks(o));
      (r.Crashed? <==> refused && !o.spec.suffix) &&
      (r.Served? ==>
         Justified(o, log, ticks, objects, r.result.state) &&
         (r.result.status == 206 ==> SentSelection(u, o.spec, r.result, written, complete)) &&
         (r.result.status == 206 &&
          (r.result.state in {Hit, Stale} || (!st'.expired && SteadyOrigin(o.base, o.header, steady) &&
                                              Settled(u, o.st, o.header, steady))) ==>
            complete) &&
         (r.result.status != 206 ==>
            r.result.status == 416 && written == [] && (Resolve(o.spec, |u.body|).None? || (refused && o.spec.suffix))))
    }

    // Handles a range request and sends the answer. What is sent is always a prefix of
    // the selected bytes, and all of them exactly when every body file could be opened;
    // a 416 is sent only for a range that selects nothing, or on a refused renewal.
    method Respond(ghost u: Url, path: string, rawQuery: string, request: Request, policy: Policy, ghost steady: Steady)
      returns (r: RangeOutcome, written: seq<Byte>, complete: bool)
      requires Inv(u) && HonestOrigin(u) && u.base == BaseKey(policy.siteId, path, rawQuery) &&
               RulePolicy(parseDuration, policy)
      modifies store, this`ticks, this`calls, this`fetches, this`asked
      ensures Inv(u) && Evolves(u.base, old(store.State()), store.State()) && Learns(old(fetches), fetches)
      ensures match PrepareRange(request, policy)
              case None => r.NotServed? && store.State() == old(store.State())
              case Some((h, spec)) =>
                RespondedWell(u, Occasion(u.base, policy, h, spec, old(store.State()), old(ticks), old(calls)),
                              store.State(), asked, ticks, fetches.objects, steady, r, written, complete)
      ensures '|' !in policy.siteId ==> SentForOneUrl(asked, policy.siteId, path, rawQuery)
    {
      hide LogHolds, BarFree, Good, Evolves, HonestOrigin, SteadyOrigin, Settled, WellFormed, Refused,
           ParseContentRange, Resolve, SentSelection, HandledWell, FullFresh, ForChunks, Justified, RulePolicy,
           BaseKey, SentForOneUrl;
      written, complete := [], false;
      ghost var st0, ticks0, calls0 := store.State(), ticks, calls;
      r := Handle(u, path, rawQuery, request, policy, steady);
      ghost var st1 := store.State();
      ghost var prepared := PrepareRange(request, policy);
      if prepared.Some? {
        HandledFacts(u, Occasion(u.base, policy, prepared.value.0, prepared.value.1, st0, ticks0, calls0), st1, asked,
                     ticks, fetches.objects, r, steady);
      }
      if r.Served? {
        GoodFacts(u, st1, fetches);
        SentExactly(u, Occasion(u.base, policy, prepared.value.0, prepared.value.1, st0, ticks0, calls0), st1, asked,
                    ticks, fetches.objects, r, steady);
        CleanupOnlyTemps(st1.history, st1.files, r.result.parts);
        RemoveTempsGood(u, st1, fetches, CleanupPaths(Visited(st1.files, r.result.parts)));
        written, complete := WriteRangeParts(store, r.result.parts);
        EvolvesTransitive(u.base, st0, st1, store.State());
      }
      if '|' !in policy.siteId { KeyTellsUrl(asked, policy.siteId, path, rawQuery); }
    }

    lemma HandledFacts(u: Url, o: Occasion, st': StoreState, log: seq<Query>, ticks: nat,
                       objects: map<(string, ChunkObject), Dating>, r: RangeOutcome, steady: Steady)
      requires WellFormed(o.spec) && HandledWell(u, o, st', log, ticks, objects, r, steady)
      ensures r.Crashed? <==> !FullFresh(o) && Refused(ForChunks(o)) && !o.spec.suffix
      ensures r.Served? ==> Justified(o, log, ticks, objects, r.result.state)
    {
      hide SteadyOrigin, Settled, Refused, FullFresh, FullObjectResult, OriginFails, WillingOrigin, AsksEnough,
           KnownObject, FullEntry, ForChunks, Answers, OnDisk, ObjectFresh, ObjectStale, Accounted, RenewedMeanwhile;
    }
  }
}
