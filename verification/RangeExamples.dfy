/** Renewals refused, shown on one store and one origin: a range with a start crashes,
    and a suffix range is told that the representation is empty. */
module RangeExamples {
  import opened Text
  import opened Headers
  import opened CacheKeys
  import opened Freshness
  import opened Policies
  import opened ByteRange
  import opened BlobStore
  import opened RangeModel
  import opened RangeCaching

  const CHUNK_SIZE: int := 1024

  const FIELDS: Header := map["Etag" := ["v"], "Expires" := ["x"], "Content-Range" := ["x"]]

  // Partial replies may be stored, if only to be renewed; a HEAD request gets a
  // validator and nothing to decide on.
  function Origin(n: nat, query: Query): FetchReply {
    if query.request.verb == "HEAD" then Reply(200, map["Etag" := ["v"]], [], 0) else Reply(206, FIELDS, [], 0)
  }

  function Base(): string {
    BaseKey("s", "/a", "")
  }

  function Actions(): CacheAction {
    CacheAction("follow_origin", "", "", false)
  }

  function FollowPolicy(): Policy {
    BuildPolicy("s", "r", Actions(), None, None)
  }

  function Object(): ChunkObject {
    ChunkObject(ResponseKey(Base()), "s", "r", FollowPolicy().policyTag, Windows(0, 0, 0, DEFAULT_MANAGED_TTL), 0,
                SanitizeChunk(FIELDS), 1, CHUNK_SIZE)
  }

  function Moments(n: nat): int {
    0
  }

  function Unparsed(s: string): Option<int> {
    None
  }

  function Epoch(s: string): Option<int> {
    Some(0)
  }

  function Same(s: string): string {
    s
  }

  function NothingLapses(n: nat): set<string> {
    {}
  }

  ghost function Store(): StoreState {
    StoreState(map[RangeObjectKey(ResponseKey(Base())) := ObjectRecord(Object())], map[], map[], 0, 0, false)
  }

  ghost function Fetched(): Fetches {
    Fetches(map[], map[(Base(), Object()) := FromReply(FollowPolicy(), 0, 0)])
  }

  ghost function Resource(): Url {
    Url(Base(), [0], CHUNK_SIZE)
  }

  lemma FieldsKept()
    ensures SanitizeChunk(FIELDS) == map["Etag" := ["v"], "Expires" := ["x"]]
    ensures SanitizeChunk(map["Etag" := ["v"]]) == map["Etag" := ["v"]]
  {
    assert ConnectionTokens([]) == [];
    assert (set t | t in [] :: CanonicalKey(TrimSpace(t))) == {};
  }

  lemma NoDirectives()
    ensures ParseCacheControl("") == Directives(false, false, false, None, None, 0, 0)
  {
    assert Split("", ',') == [""];
    assert TrimSpace("") == "";
  }

  // The partial reply is stored, to be renewed at once.
  lemma StoredOnce()
    ensures DecideChunkStore(Epoch, 0, FollowPolicy(), 206, FIELDS) == Decision(true, 0, 0, 0, [])
    ensures RulePolicy(Unparsed, FollowPolicy()) && BarFree(Unparsed)
  {
    NoDirectives();
    assert CombinedValue(FIELDS, "Cache-Control") == "";
    assert ParseVary([]) == Some([]);
    assert TrimSpace("") == "";
    assert ValidAction(Unparsed, Actions()) && FollowPolicy() == PolicyOf(Unparsed, "s", "r", Actions());
  }

  // The HEAD reply names no time to live.
  lemma RenewedNever()
    ensures RenewalFields(Object(), Origin(1, Query(Base(), Request("HEAD", map[])))) == Some(map["Etag" := ["v"]])
    ensures DecideChunkMetadata(Epoch, 0, FollowPolicy(), map["Etag" := ["v"]]).None?
  {
    FieldsKept();
    NoDirectives();
    assert CombinedValue(map["Etag" := ["v"]], "Cache-Control") == "";
  }

  lemma StoreIsGood()
    ensures Good(Resource(), Store(), Fetched())
  {
    var key := RangeObjectKey(ResponseKey(Base()));
    assert HasPrefix(key, "rmeta|");
    OneKind(key);
    OtherKinds(Base(), key);
  }

  ghost function Log(): seq<Query> {
    [Query(Base(), Request("GET", map[]))]
  }

  ghost predicate IsExample(cache: RangeCache) {
    cache.chunkSize == CHUNK_SIZE && cache.digest == Same && cache.parseTime == Epoch &&
    cache.parseDuration == Unparsed &&
    cache.clock == Moments && cache.origin == Origin && cache.store.world == World(NothingLapses, Moments)
  }

  lemma LogIsGood(cache: RangeCache)
    requires IsExample(cache)
    ensures cache.LogHolds(Log(), 2, Fetched().objects)
  {
    hide DecideChunkStore, RulePolicy, SanitizeChunk, FollowPolicy;
    StoredOnce();
    FieldsKept();
    TagOfPolicy();
    assert cache.Dated(Log(), 2, Fetched().objects, Base(), Object(), FromReply(FollowPolicy(), 0, 0));
  }

  lemma TagOfPolicy()
    ensures Object().policyTag == FollowPolicy().policyTag
  {
  }

  lemma OriginIsHonest(cache: RangeCache)
    requires IsExample(cache)
    ensures cache.HonestOrigin(Resource())
  {
    assert ParseContentRange("x").None?;
  }

  lemma NothingLost(st: StoreState)
    ensures Lapse(World(NothingLapses, Moments), st).records == st.records
  {
    assert Lapsing(World(NothingLapses, Moments), st.ops) == {};
  }

  lemma OnlyTheObject(cache: RangeCache, st: StoreState)
    requires IsExample(cache) && st.records == Store().records
    ensures cache.StoredObject(st, Base(), map[]) == Some(Object()) && cache.FullEntry(st, Base(), map[]) == None
    ensures cache.AfterLookup(st).records == st.records
  {
    hide Object, Lapse, EffectiveVary, BaseKey;
    NothingLost(st);
    NothingLost(Lapse(cache.store.world, st));
    EffectiveVaryEmpty(map[], None, []);
    assert RangeObjectKey(ResponseKey(Base()))[1] == 'm' && RangeVaryKey(Base())[1] == 'v';
    assert VaryKey(Base())[0] == 'v' && ResponseKey(Base())[1] == 'e';
  }

  lemma RenewalRefused(cache: RangeCache, spec: RangeSpec)
    requires IsExample(cache)
    ensures var o := Occasion(Base(), FollowPolicy(), map[], spec, Store(), 2, 1);
            !cache.FullFresh(o) && cache.Refused(cache.ForChunks(o))
  {
    hide DecideChunkMetadata, SanitizeChunk, RangeCache.AfterLookup, RangeCache.StoredObject, RangeCache.FullEntry,
         PolicyTag;
    OnlyTheObject(cache, Store());
    OnlyTheObject(cache, cache.AfterLookup(Store()));
    RenewedNever();
    FieldsKept();
    TagOfPolicy();
  }

  lemma ExampleInv(cache: RangeCache)
    requires IsExample(cache) && cache.store.State() == Store() && cache.ticks == 2 && cache.calls == 1
    requires cache.fetches == Fetched() && cache.asked == Log()
    ensures cache.Inv(Resource())
  {
    hide RangeCache.LogHolds, Good, BarFree, Object, FollowPolicy;
    StoredOnce();
    StoreIsGood();
    LogIsGood(cache);
  }

  // A stored object whose renewal is about to be refused.
  method StaleCache() returns (cache: RangeCache)
    ensures fresh(cache) && fresh(cache.store) && IsExample(cache) && cache.Inv(Resource()) &&
            cache.HonestOrigin(Resource())
    ensures cache.store.State() == Store() && cache.ticks == 2 && cache.calls == 1
  {
    hide RangeCache.Inv, RangeCache.HonestOrigin, BaseKey, RangeObjectKey, ResponseKey, Object, FollowPolicy;
    var store := new BadgerStore(World(NothingLapses, Moments));
    store.records := map[RangeObjectKey(ResponseKey(Base())) := ObjectRecord(Object())];
    cache := new RangeCache(store, CHUNK_SIZE, Same, Epoch, Unparsed, Moments, Origin);
    cache.ticks, cache.calls := 2, 1;
    cache.fetches := Fetched();
    cache.asked := Log();
    ExampleInv(cache);
    OriginIsHonest(cache);
  }

  // The range comes to what the renewal does.
  method AskFor(text: string, ghost spec: RangeSpec) returns (r: RangeOutcome)
    requires ParseSingleByteRange(text) == Some(spec)
    ensures r.Crashed? <==> !spec.suffix
    ensures r == Served(NotSatisfiable(Bypassed, 0)) <==> spec.suffix
  {
    hide RangeCache.LogHolds, RangeCache.HonestOrigin, Good, BarFree, BaseKey, ParseSingleByteRange,
         RangeCache.FullFresh, RangeCache.Refused, RangeCache.ForChunks,
         RangeCache.SteadyOrigin, RangeCache.Settled, RangeCache.WillingOrigin, NotSatisfiable, Answers,
           FullObjectResult, RulePolicy, FollowPolicy, Store, Evolves, Learns, SharedCacheSensitive;
    StoredOnce();
    var cache := StaleCache();
    var request := Request("GET", map["Range" := [text]]);
    RenewalRefused(cache, spec);
    PreparedPlainly(text, spec);
    r := cache.Handle(Resource(), "/a", "", request, FollowPolicy(), Steady(Validators("", ""), [], iset{}));
  }

  lemma PreparedPlainly(text: string, spec: RangeSpec)
    requires ParseSingleByteRange(text) == Some(spec)
    ensures PrepareRange(Request("GET", map["Range" := [text]]), FollowPolicy()) == Some((map[], spec))
    ensures FollowPolicy().siteId == "s" && WellFormed(spec)
  {
    hide ParseSingleByteRange;
    var h: Header := map["Range" := [text]];
    assert h - {"Cache-Control", "Pragma", "Range"} - CONDITIONAL_HEADERS == map[];
  }

  // The first byte is asked for, and the last.
  method RefusedRenewals() returns (ranged: RangeOutcome, suffixed: RangeOutcome)
    ensures ranged == Crashed && suffixed == Served(NotSatisfiable(Bypassed, 0))
  {
    hide ParseSingleByteRange, NotSatisfiable, FormatInt;
    RangeHeaderParses(0, 0);
    ranged := AskFor(RangeHeader(0, 0), RangeSpec(0, 0, true, false, 0));
    var last := RangeSpec(0, 0, false, true, 1);
    RangeTextParses(last);
    suffixed := AskFor(RangeText(last), last);
  }
}
