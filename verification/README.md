# TinyCDN, modelled and proved in Dafny

TinyCDN is a caching reverse proxy. This project models its data plane (the blob store,
the range cache, the engine and its single-flight fills), the control plane that feeds
it (configuration, compilation, the transactional service), the rule form of its web
interface and the latency histograms, and proves what they promise.

`dafny verify dfyconfig.toml` checks everything.

| file | what it models |
|---|---|
| Text, Headers | strings, int64 decimals, header fields and validators |
| CacheKeys | storage keys, Vary names, fingerprints |
| ByteRange | byte ranges, their resolution, and the chunks that tile them |
| Freshness | store decisions and windows in int64 nanoseconds |
| Directives | what the text of Cache-Control, Expires and Vary makes of these decisions |
| BlobStore | records, body files, expiry, and every operation of the store as a function of its state and as a method of the class |
| RangeModel, RangeParts, RangeCache | the range cache: its invariant, the parts of an answer and the bytes sent, the class itself |
| RangeExamples | a store and an origin on which the range cache crashes, and answers a wrong 416 |
| FillProtocol | claim, wait and release as interleaved steps; the fills map |
| KeySpace, RenewalBodies, Engine | the Vary-indexed key space, what renewals do to bodies, the engine and the router paths around it |
| RenewalExamples | a store and an origin on which a 304 that changes no field loses the body it confirms |
| Purge | purges by URL and by site over both caches |
| Sharing, Router | what each cache, and each purge, leaves of what the other relies on; the router's dispatch between them, for many URLs |
| Policies, Config, Runtime, Grouping, Service, RuleForm | policy tags, validation, compilation and matching, blocks of conditions, the service, the form |
| Telemetry | histograms and percentiles |

How the outside world appears: the origin is a function from the number of a request, and
the request with its URL, to a reply; the clock a function from the number of a reading to
a time; and expiry a function from the number of a store access to the records that are
gone by then, of which names are never one, as they are written without a time to live.
Every theorem holds for all of them. `RangeCache` and `Engine` log what they ask, and date
what they store: for every object and entry the ghost state names the request it was built
or renewed from, the clock reading and the policy. The store carries the history of every
file that was ever on disk, so that a file name stands for one content forever.

Main results:

- **A cache that caches.** The store after a request is given in full, for every outcome of
  the lookup, the origin's reply and whatever fails on the way (`Engine.Serve`); so a reply
  that may be stored is what the same request finds next, and a hit for as long as the time
  to live decided on it (`MissThenHit`). A fill asks for a chunk exactly if none is stored
  that may be used, and for nothing else (`FillChunk`, `FillChunks`).
- **What the decisions rest on.** In terms of the fields themselves: which requests are
  cached at all, none with credentials or cookies among them (`TakenIff`, `CachedIff`);
  which URLs share a key, with the input that collides (`KeysCollideIff`,
  `WrittenAlikeIff`, `KeyOfOneUrl`); when field values normalise alike
  (`TokensNormalizeIff`, `ValuesNormalizeIff`); what each part of Cache-Control means for
  storing and for how long (`DirectivesAre`, `StoreDecisionIs`, `ChunkDecisionIs`); and what
  a rule of the configuration means to the snapshot, the policy and the matcher
  (`SiteCompiledIff`, `CompiledPolicyIs`, `ClauseMeans`).
- **Range answers are exact.** Whatever sequence of fills, revalidations, purges and, as
  said below, requests to the engine went before, a 206 consists of parts whose bytes are
  exactly those section 14.1.2 of RFC 9110 selects (`RangeCache.Respond`); what is sent is
  a prefix of them, and all of them exactly when no body file went missing. Hits and stale
  answers never miss one; nor do misses while the origin is steady: partial replies and
  full ones to HEAD are of one version and one list of names, and a 304 leaves stored fields
  of that version as such, whether it repeats all its fields or few
  (`ConfirmationKeepsIff`, `PartialConfirmationIsSteady`, `RepeatedFieldsAreSteady`).
- **Freshness over whole runs.** A hit comes from an object or entry that is looked up in
  the store as it was, and the clock is before its last store or renewal plus the time to
  live decided then under the same policy settings; or it was renewed while the request
  was handled, or by a 304 to this request's own conditional plan. A stale answer is one
  the policy allows, within its window, and before the entry is invalid unless a duration
  exceeds about 97 years (`RangeCache.Handle`, `Engine.Serve`, and `Router.Answer`
  for ranges of full responses).
- **Nothing is missing.** No record ever names a missing file, so what the engine finds it
  sends, all of it, unless the entry has just been renewed under other names than those it
  was found under (`SoundHasBody`, `Router.Answer`); then, if nothing expires meanwhile,
  never (`RenewedBodyIff`).
- **The two caches share a store.** For a family of URLs none of whose base keys starts
  with another's, one request for one of them keeps both caches' invariants for all of
  them, as long as replies that may be stored carry the whole body and renewals keep their
  names (`Router.Answer`); purges do too (`Router.PurgeUrl`, `Router.PurgeSite`). Without
  the first condition the invariant is lost exactly as `StoreKeepsGoodIff` says, without
  the second a body is lost exactly as `RenewalKeepsBodyIff` says.
- **What is false, exactly.** The range cache divides by zero on a range with a start, and
  answers a wrong 416 on a suffix range, exactly when no fresh full response is found, the
  object a lookup finds is of this policy and no longer fresh, it is asked about with HEAD
  and renewed, and the policy does not let the renewed fields be stored
  (`RangeCache.HandledWell`, all judged on the state before the call; `RefusedRenewals`
  shows both on one store). A renewal deletes the body it has just renewed exactly if the
  names it stores under are not those recorded (`RenewalKeepsBodyIff`). A fill adds Origin
  to the names, a renewal does not: so a 304 that changes nothing loses the body exactly
  if the request has Origin, or the response allows one, and Vary does not list it
  (`ConfirmedBodyIff`), and the client gets an empty hit (`LostByConfirmation`). What the
  caller can check is the Vary of the merged fields (`NamesKeptIff`). A renewal without
  names is not found again by a request with Origin (`RenewalFoundIff`). For all int64
  durations the windows nest exactly under the condition of `WindowsOrderedIff`, and a
  max-age of 9,223,372,037 seconds is one with which they never do. A rule comes back from the form matching other requests exactly as
  `ClauseRoundTripIff` and `RuleRoundTripIff` say. A plan carried out without streaming
  answers with a body path that is already gone (`HandlePlan`; the router never does this).
  A purge of a URL takes the chunk metadata of longer ones and keeps the range cache's
  invariant for those exactly if none of their chunks is left (`LongerUrlPurgeIff`).
- **Fills.** In every interleaving at most one plan is live per key, no channel is closed
  twice, no wakeup is lost, and every schedule ends within N(3N + 6) steps, with at most N
  fills and N(N - 1) waits. Every path through the router and the engine releases its plan
  exactly once.
- **Key space and store.** A URL holds nothing, one plain response, or one list of names
  with variants; lookups find a stored entry exactly when the listed fields normalise
  equally, and while no names are recorded a request with Origin finds nothing
  (`PlainFoundIff`); no record ever names a missing file.
- **Control plane.** Valid configurations stay valid, compile and route; failed calls
  change nothing; a reordering is accepted exactly when it is a permutation that keeps the
  catch-all last.

## Model

| member | source | states |
|---|---|---|
| Text.ParseFormatted | internal/cache/range.go:1060-1067 | every int64 the cache prints in decimal is read back as itself |
| Text.PadIntInjective | internal/cache/range.go:1092-1094 | the 20-digit padding of chunk indexes never makes two indexes alike |
| Text.JoinInjective | internal/cache/engine.go:746-758 | newline-joined fingerprint parts determine the parts |
| Headers.StoredFieldsAre | internal/httpx/headers.go:23-41 | what is kept of a response: every field with its values, but those of the connection, those its Connection field names, the length, and of a part its place |
| Headers.MergedFieldsAre | internal/cache/engine.go:1050-1060 | after a 304 a field is that of the 304 if it has one, and the stored one if not |
| ByteRange.RangeTextParses | internal/cache/range.go:730-766 | every range there is, from-to, from or last bytes, with positions and suffix within int64, parses back from its text |
| ByteRange.RangeParsesIff | internal/cache/range.go:730-766 | exactly which fields are accepted as a range, and as which: the unit bytes, one range, a number behind the dash alone for a suffix, a start before it otherwise, and an end not before that or none |
| ByteRange.RangeHeaderParses | internal/cache/range.go:493 | the Range field sent for a chunk asks for exactly that chunk |
| ByteRange.ContentRangeParses | internal/cache/range.go:1043-1069 | a written Content-Range is read back exactly, and accepted exactly if it is consistent |
| ByteRange.PlaceParsesIff | internal/cache/range.go:1043-1069 | exactly which fields are accepted as a place, and as which |
| ByteRange.ResolveMeetsRfc | internal/cache/range.go:768-792 | resolution fails exactly on ranges that select nothing, and otherwise yields exactly the positions section 14.1.2 of RFC 9110 selects |
| ByteRange.ResolveUnknown | internal/cache/range.go:768-777 | with the length unknown a suffix does not resolve, and other ranges are taken at their word, an open one as its first position |
| ByteRange.RequestedChunkIndexes | internal/cache/range.go:814-822 | the loop lists the chunk indexes of the range in order |
| ByteRange.RequestedChunkIndexesKnown | internal/cache/range.go:794-812 | with the length unknown, an open-ended range asks for its first chunk and a suffix range for none |
| ByteRange.SliceInsideChunk | internal/cache/range.go:824-838 | a requested slice is non-empty and inside the real bytes of its chunk, a short last chunk included |
| ByteRange.SlicesTile | internal/cache/range.go:814-838 | the slices tile the range in order, without gap or overlap |
| ByteRange.LengthsSum | internal/cache/range.go:832-838 | the slice lengths add up to the announced length |
| ByteRange.TilingFitsInt64 | internal/cache/range.go:488-489 | no chunk bound overflows int64 when the chunk size divides 2^63, as the default does |
| Freshness.DirectiveDurationExact | internal/cache/engine.go:1004-1011 | a directive's seconds become nanoseconds without wrap-around exactly up to 9,223,372,036 |
| Freshness.DirectiveWraps | internal/cache/engine.go:1004-1011 | and one second more than fits makes it negative |
| Freshness.WindowsOrderedIff | internal/cache/engine.go:480-512 | for all int64 durations the windows nest if and only if the time to live is not negative and neither it nor the wrapped end of staleness exceeds the lifetime, which is where the entry becomes invalid |
| Freshness.WindowsAre | internal/cache/engine.go:480-512 | for durations that are not negative and add up within int64, each window starts where the one before ends; with nothing to keep a response for, five minutes if it has validators and no time if it has none |
| Freshness.UnwrappedOrderedIff | internal/cache/engine.go:480-512 | where nothing wraps, in terms of the durations alone, negative stale durations included |
| Freshness.NonNegativeOrderedIff | internal/cache/engine.go:480-512 | for non-negative durations: the sum fits int64, or validators replace the lost lifetime and staleness ends before it |
| Freshness.NegativeTtlNeverNests | internal/cache/engine.go:480-512 | a negative time to live never gives nested windows |
| Freshness.StorableWindows | internal/cache/engine.go:522-592 | within about 97 years per duration, whatever is decided storable has nested windows and stays valid for a positive time |
| Freshness.DecideChunkMetadata | internal/cache/range.go:943-988 | a renewal is granted only by a policy that caches, with the names of its Vary fields, and under an origin-led policy only with validators or some lifetime to keep it for |
| Freshness.RenewalEqualsRefetch | internal/cache/range.go:583-622 | a renewal gets the windows and the key a cookie-free, unencoded 206 with the same fields would get at that instant, and is refused exactly when that would not be stored |
| Directives.DirectivesAre | internal/cache/engine.go:940-1011 | a flag is set exactly if some part of the field, trimmed, cut at the equals sign and in lower case, is its name; max-age and s-maxage are those of the last such part with a value, the stale durations of the last whose value is a number of seconds |
| Directives.TimeToLiveIs | internal/cache/engine.go:985-1002 | s-maxage, else max-age, else nothing under no-cache, else the time until Expires, if that parses, not below zero and not beyond int64 |
| Directives.MetadataDecisionIs | internal/cache/range.go:943-988 | the decision on a renewal in terms of the fields: what Cache-Control, Expires, Vary and the validators say under each mode |
| Directives.StoreDecisionIs | internal/cache/engine.go:522-592 | a full response is stored as those fields say exactly if its status is one of ten, it has no Content-Range and sets no cookie |
| Directives.ChunkDecisionIs | internal/cache/range.go:874-941 | a partial one exactly if it is a 206 with a Content-Range, sets no cookie and is in its plain encoding |
| Directives.ForbiddenIsRefused | internal/cache/engine.go:535-537 | under a policy led by the origin, a part named no-store or private makes all three decisions refuse |
| CacheKeys.FingerprintParts | internal/cache/engine.go:746-758 | one part for each name, from the normalised values of its field |
| CacheKeys.EffectiveVaryEmpty | internal/cache/engine.go:777-810 | Origin is effective whenever the request has it or the response allows an origin; no names are effective otherwise |
| CacheKeys.KeysCollideIff | internal/cache/engine.go:695-701 | for sites without a bar in their id, two URLs share a base key if and only if they are of one site and written alike |
| CacheKeys.WrittenAlikeIff | internal/cache/engine.go:695-701 | URLs are written alike if and only if path and query are the same, or one path has a question mark itself and runs on from the other with what its query is |
| CacheKeys.KeyOfOneUrl | internal/cache/engine.go:695-701 | so among paths without a question mark a key stands for one site, path and query |
| CacheKeys.VaryIs | internal/cache/engine.go:907-928 | a Vary field gives exactly the names that one of its values lists, canonical, and none if a "*" is among them |
| CacheKeys.EffectiveNamesAre | internal/cache/engine.go:777-810 | the effective names are the listed ones, and Origin if the request has it or the response allows an origin |
| CacheKeys.LookupKeyIs | internal/cache/engine.go:730-739 | a lookup goes under the recorded names; while there are none, to the plain response, or under Origin for a request that has it |
| CacheKeys.ParsedAreNames | internal/cache/engine.go:907-928 | the names a Vary field lists are canonical, distinct and in order |
| CacheKeys.EffectiveVaryKeepsIff | internal/cache/engine.go:777-810 | such names are the effective ones if and only if Origin is not managed for the request and the response, or is among them |
| CacheKeys.FillMeetsLookup | internal/cache/engine.go:723-739 | a fill under the stored names writes where a lookup for the same request reads |
| CacheKeys.VariantKeyShared | internal/cache/engine.go:741-775 | two requests share a variant if and only if all listed fields normalise equally |
| CacheKeys.TokensNormalizeIff | internal/cache/engine.go:760-828 | values of Accept-Encoding and Accept-Language normalise equally if and only if they list the same tokens in order, up to case |
| CacheKeys.ListsNormalizeIff | internal/cache/engine.go:812-828 | however a list of tokens is spaced |
| CacheKeys.ValuesNormalizeIff | internal/cache/engine.go:769-775 | values of other fields, which have no commas, if and only if they are the same but for blank ones and space around them |
| BlobStore.BadgerStore.PutEntry | internal/cache/store.go:131-166 | writes the entry, or deletes it if already invalid, and removes the body it replaces unless it is the same one |
| BlobStore.BadgerStore.PutChunk | internal/cache/store.go:253-288 | the same for chunks |
| BlobStore.BadgerStore.PutChunkObject | internal/cache/store.go:199-220 | writes an object's metadata, or deletes it if already invalid |
| BlobStore.BadgerStore.PutVary | internal/cache/store.go:360-373 | writes names without a time to live |
| BlobStore.BadgerStore.TouchChunkPrefix | internal/cache/store.go:290-326 | puts every chunk under the prefix back with the new time, each once |
| BlobStore.BadgerStore.ImportBody | internal/cache/store.go:375-388 | moves a temporary file into the blob directory under the same name |
| BlobStore.BadgerStore.Delete | internal/cache/store.go:390-426 | deletes the record and its body |
| BlobStore.BadgerStore.DeletePrefix | internal/cache/store.go:428-497 | deletes all matching records and their bodies, and counts the records |
| BlobStore.BadgerStore.PruneOrphanBodies | internal/cache/store.go:564-629 | removes exactly the blobs no record names |
| BlobStore.WriteIs | internal/cache/store.go:131-166 | a write before its time is over puts the record there and changes nothing else; a later one takes away what was there |
| BlobStore.PutIs | internal/cache/store.go:131-166 | entries and chunks are put until they become invalid, and only the file of the body they replace goes, unless it is theirs |
| BlobStore.DeleteIs | internal/cache/store.go:390-426 | a deletion takes the record and its body file, and nothing else but what lapses |
| BlobStore.DeletePrefixIs | internal/cache/store.go:428-497 | one by prefix takes exactly the records under it and their files |
| BlobStore.TouchAllWrites | internal/cache/store.go:290-326 | unless something expires, a touch gives the listed chunks the new time and changes nothing else |
| BlobStore.PruneExact | internal/cache/store.go:564-629 | reopening leaves exactly the blobs that records name |
| BlobStore.RunSound | internal/cache/store.go:131-629 | over any run of store operations, expiry and reopening included, no record names a missing file and no two share one |
| RangeModel.ChunkKeyInjective | internal/cache/range.go:1092-1094 | a chunk key determines its object key and index |
| RangeModel.PutObjectGood | internal/cache/range.go:660-681 | writing an object of the version of its stored chunks keeps the range invariant |
| RangeModel.PutChunkGood | internal/cache/range.go:450-452 | writing a chunk of its object's version keeps the range invariant |
| RangeModel.DeleteChunksGood | internal/cache/range.go:675-679 | dropping an object's chunks keeps the invariant, the objects and the names |
| RangeModel.TouchGood | internal/cache/range.go:555-571 | extending the life of an object's chunks keeps the invariant |
| RangeModel.PurgedGood | internal/cache/range.go:683-699 | without any range record of the URL the invariant holds again, whatever went before |
| RangeParts.WriteExact | internal/proxy/router.go:328-356 | what is sent is a prefix of what the parts stand for, all of it if and only if every body file is there |
| RangeParts.PartsCoverRange | internal/cache/range.go:366-377 | one sliced part for each requested chunk makes up exactly the range |
| RangeParts.WriteRangeParts | internal/proxy/router.go:301-357 | sends the parts in order, stops at a missing file, and then removes the temporary files it came to |
| RangeCaching.OrderParts | internal/cache/range.go:366-375 | orders and cuts the collected parts, and fails exactly if one is missing |
| RangeCaching.OrderedCover | internal/cache/range.go:366-377 | the ordered parts are exactly the bytes of the range |
| RangeCaching.WholeBodyAnswers | internal/cache/range.go:326-341 | one part of a whole body is a correct 206 |
| RangeCaching.FullObjectAnswers | internal/cache/range.go:208-226 | a stored full response answers a range correctly, or with 416 exactly if it selects nothing |
| RangeCaching.ChunkResultAnswers | internal/cache/range.go:990-1009 | the 206 built from parts announces the range and length it carries |
| RangeCaching.PrepareRange | internal/cache/range.go:701-728 | what is handled has a well-formed range in canonical form, and the fields sent on are among those received |
| RangeCaching.TakenIff | internal/cache/range.go:701-728 | in fields: a range request is handled if and only if the policy caches, the method is GET, there is no Authorization, no Cookie and no If-Range, and Range parses; every field but the eight named is sent on as it is |
| RangeCaching.PartialFieldsAre | internal/cache/range.go:1002-1009 | a 206 has its range, its length and the stored fields, with their values as stored |
| RangeCaching.RangeCache.ChunkHeaderIs | internal/cache/range.go:487-495 | the request for a chunk asks for its positions, unencoded, and has the other fields of the client |
| RangeCaching.RangeCache.ValidationHeaderIs | internal/cache/range.go:528-546 | the request about an object asks on the condition that its Etag or Last-Modified changed, unencoded and without a range, and has the other fields of the client |
| RangeCaching.ConfirmationKeepsIff | internal/cache/engine.go:1050-1060 | a 304 need not repeat what it confirms: if it repeats Vary and the allowed origin as stored or not at all, the stored fields keep version and names if and only if the validators it does repeat are those |
| RangeCaching.PartialConfirmationIsSteady | internal/cache/engine.go:1050-1060 | a 304 that repeats some validators of a version, or none, and neither Vary nor the allowed origin, meets the hypothesis of steadiness |
| RangeCaching.RepeatedFieldsAreSteady | internal/cache/engine.go:1050-1060 | so does one that repeats any of the fields of the one form a version is stored in, Vary included |
| RangeCaching.RangeCache.ObjectWindows | internal/cache/range.go:583-622 | whenever an object of this policy was stored or renewed, it was decided under the same settings, is fresh for the time to live decided then, and, within about 97 years and on a clock that does not go back, ends its staleness before it is invalid |
| RangeCaching.RangeCache.RenewalSettles | internal/cache/range.go:583-622 | a renewal from fields of the steady version and names leaves a store that agrees with them in agreement |
| RangeCaching.RangeCache.LookupChunkObject | internal/cache/range.go:242-253 | finds the object under the key the stored names and the request give |
| RangeCaching.RangeCache.PurgeRangeStorage | internal/cache/range.go:683-699 | no range record of the URL is left, nor a body file of its chunks unless something expires, and the invariant holds |
| RangeCaching.RangeCache.PrepareVary | internal/cache/range.go:660-674 | the names are recorded; other names drop every chunk with its body and all metadata, the same names drop nothing |
| RangeCaching.RangeCache.StoreChunkObject | internal/cache/range.go:660-681 | the object is stored and no chunk of another version remains, nor its body file; under other names no other metadata either |
| RangeCaching.RangeCache.RenewChunkObject | internal/cache/range.go:583-622 | the renewed object is stored under the key its names give with the decided windows, and either the key is the old one or neither a chunk of the URL nor any other metadata is left; a refused renewal returns the zero object |
| RangeCaching.RangeCache.RenewDecided | internal/cache/range.go:591-622 | a renewal that is granted dates the new object by the last request, the reading and the object renewed, and stores it under the key its own names give |
| RangeCaching.RangeCache.TouchChunks | internal/cache/range.go:555-571 | all chunks of the object stay valid until the given time |
| RangeCaching.RangeCache.RevalidateChunkObject | internal/cache/range.go:528-581 | asks with the one HEAD request, fails exactly if that does, renews exactly on 304 and 200, from the merged or the new fields, and comes to a refusal or to a dated object where lookups find it, whose chunks live as long if the version is confirmed |
| RangeCaching.RangeCache.RenewAndTouch | internal/cache/range.go:548-581 | the same for given fields: the zero object exactly if the policy refuses them |
| RangeCaching.RangeCache.PartialReply | internal/cache/range.go:517-525 | the decision, key and windows of a partial reply |
| RangeCaching.RangeCache.FetchChunk | internal/cache/range.go:487-526 | exactly which replies are used, and that their bytes are the chunk or the whole body |
| RangeCaching.RangeCache.ImportChunkBody | internal/cache/range.go:419-432 | the body is in the blob directory and no record names it yet |
| RangeCaching.RangeCache.WriteObjectVersion | internal/cache/range.go:434-449 | the object is written, and chunks of another version are gone with their body files |
| RangeCaching.RangeCache.StoreChunk | internal/cache/range.go:418-453 | chunk and object are stored, of one version; other chunks' files survive if version and names stay, and those of the object's chunks are gone if its version changes |
| RangeCaching.RangeCache.FetchAndMaybeStoreChunk | internal/cache/range.go:380-485 | the one request for the chunk; the part is the chunk's bytes; it is stored exactly if the decision says so, never under a no-store or private led by the origin, and then found again; parts collected before keep their files if version and names stay, and lose them if the version changes; an unstored part is a temporary file to be cleaned up |
| RangeCaching.RangeCache.StoredChunk | internal/cache/range.go:313-320 | a stored chunk is used exactly if it is found and its object is still valid |
| RangeCaching.RangeCache.LoadChunkParts | internal/cache/range.go:637-658 | complete means the exact bytes of the range, all on disk, from chunks still valid when they were read; incomplete means a chunk is missing or no longer valid |
| RangeCaching.RangeCache.FillFromOrigin | internal/cache/range.go:322-355 | one request for the chunk, and one more part, with the length learned from the first reply |
| RangeCaching.RangeCache.FillChunk | internal/cache/range.go:312-355 | the origin is asked for the chunk exactly if no chunk of a valid object of this policy is stored; a stored one is used as it is |
| RangeCaching.RangeCache.FillChunks | internal/cache/range.go:312-356 | a part for each index iterated, each of its chunk, all on disk while the origin is steady; nothing is asked but chunks of these indexes, no more often than there are indexes |
| RangeCaching.RangeCache.FillParts | internal/cache/range.go:312-377 | the answer is correct, never with a gap, and given whenever the indexes are enough and the origin willing |
| RangeCaching.RangeCache.PlanFill | internal/cache/range.go:261-277 | exactly when a fill gives up, answers 416, or which chunks it asks for |
| RangeCaching.RangeCache.RenewForFill | internal/cache/range.go:284-310 | asks about the object exactly if it is no longer fresh and can be asked about; serves a complete hit after a renewal, exactly unless a chunk is missing or invalid; otherwise goes on with the object as it was, the renewed one, or an unknown length after a refusal |
| RangeCaching.RangeCache.FillPlanned | internal/cache/range.go:284-378 | a fill asks about an object of its policy that is due, and then for chunks of the planned indexes alone |
| RangeCaching.RangeCache.FillRange | internal/cache/range.go:255-378 | correct answers only, a hit only after a renewal that this request asked for, complete for hits and for misses of a steady origin; served whenever the length is known, or asking without it is enough, and the origin is willing |
| RangeCaching.RangeCache.LookupFreshFullObject | internal/cache/range.go:196-240 | serves from a full response exactly when a lookup in the state before finds one, fresh, of the same policy and with a length |
| RangeCaching.RangeCache.ServeIfUsable | internal/cache/range.go:112-125 | a hit when renewed or fresh, stale within the optimistic window, from chunks that are all still valid; nothing otherwise |
| RangeCaching.RangeCache.RenewIfStale | internal/cache/range.go:92-107 | renews exactly when the object is no longer fresh, the policy is origin-led, the object has validators and the HEAD reply to them is 304 or 200; fails exactly when that reply fails; the zero object exactly when the policy refuses the fields |
| RangeCaching.RangeCache.AnswerFrom | internal/cache/range.go:108-125 | division by zero exactly on a refused renewal of a range with a start, a wrong 416 exactly on one of a suffix range |
| RangeCaching.RangeCache.ServeObject | internal/cache/range.go:92-126 | the stored object in terms of the state before: exactly when it crashes, answers the wrong 416 or fails; a hit is fresh then or renewed since, a stale answer neither, within its window |
| RangeCaching.RangeCache.ServeChunks | internal/cache/range.go:86-126 | the same for what a lookup in the state before finds, and nothing for an object of another policy |
| RangeCaching.RangeCache.HandleChunked | internal/cache/range.go:86-132 | stored chunks first, then a fill, with the exact crash and failure conditions on the state before, and completeness for hits, stale answers and misses of a steady origin |
| RangeCaching.RangeCache.Handle | internal/cache/range.go:74-133 | the crash and the wrong 416 exactly, on the state before; every other answer is correct, and a hit or a stale answer comes from a full response or an object found there, accounted for by its last store or renewal, or renewed since |
| RangeCaching.RangeCache.Respond | internal/proxy/router.go:152-171 | the bytes sent are a prefix of the selected ones, and complete for hits, stale answers, and misses of a steady origin, whose 304s leave fields of its version as such, in part or in full; a 416 only for a range that selects nothing or on a refused renewal; what was sent to the origin under the key was sent for this URL |
| RangeExamples.RefusedRenewals | internal/cache/range.go:92-125 | one store, origin and policy that meet every requirement of the handler: the first byte asked for crashes it, the last byte is answered with the length zero |
| FillProtocol.StepInv | internal/cache/engine.go:203-390 | every step of every request keeps the protocol invariant |
| FillProtocol.Safety | internal/cache/engine.go:369-390 | at most one live plan per key, a key is in the map exactly while one holds it, and no channel is closed twice |
| FillProtocol.ReleasesOwn | internal/cache/engine.go:380-390 | a release by key always closes the fill of the plan that releases |
| FillProtocol.NoLostWakeup | internal/cache/engine.go:265-269 | a waiter's fill is closed, or another request holds it and can close it |
| FillProtocol.NoDeadlock | internal/cache/engine.go:203-390 | some request can always move until all are done |
| FillProtocol.FillsBounded | internal/cache/engine.go:369-378 | N requests cause at most N fills |
| FillProtocol.LateClaimLeadsAgain | internal/cache/engine.go:211-263 | the bound is met: a request that looked before a release and claims after it fetches again |
| FillProtocol.WaitsBounded | internal/cache/engine.go:265-269 | and at most N(N - 1) waits |
| FillProtocol.WaitIsNew | internal/cache/engine.go:265-269 | no request waits twice on one fill |
| FillProtocol.MeasureDecreases | internal/cache/engine.go:203-390 | every step makes the measure smaller |
| FillProtocol.RunsEnd | internal/cache/engine.go:203-390 | every schedule ends within N(3N + 6) steps |
| FillProtocol.FillTable.ClaimFill | internal/cache/engine.go:369-378 | the claim step of the protocol |
| FillProtocol.FillTable.ReleaseFill | internal/cache/engine.go:380-390 | the unlink and close steps of the protocol |
| KeySpace.StoreKeeps | internal/cache/engine.go:442-461 | storing a response keeps the key space and records its names |
| KeySpace.RunKeepsKeySpace | internal/cache/engine.go:442-461 | over any run a URL holds nothing, one plain response, or one list of names with variants under it |
| KeySpace.ApartKeys | internal/cache/engine.go:695-721 | two URLs share no key unless one continues the other like a variant |
| KeySpace.StoreIsForeign | internal/cache/engine.go:442-461 | storing for one URL leaves the records of any URL apart from it |
| KeySpace.StoreWithin | internal/cache/engine.go:442-461 | storing a response touches no record of the store but the URL's own |
| KeySpace.WithinKeepsOthers | internal/cache/engine.go:695-721 | and so leaves the key space of any URL apart from it |
| KeySpace.StoredFoundIff | internal/cache/engine.go:428-461 | a stored entry is found exactly by the requests that look at its key |
| KeySpace.ParseVaryPlain | internal/cache/engine.go:907-928 | names parsed from fields on one line have no line feed |
| KeySpace.FillFoundIff | internal/cache/engine.go:273-299 | after a fill, another request finds the entry if and only if all effective fields normalise equally, and with none if it has no Origin; `TokensNormalizeIff` and `ValuesNormalizeIff` say in fields when that is |
| KeySpace.OtherTokensMiss | internal/cache/engine.go:741-775 | a fill is not found by a request that lists other tokens in a field the response varies on |
| KeySpace.IdentityMissesGzip | internal/cache/engine.go:760-768 | a response that varies on Accept-Encoding, filled for gzip, is not found by a request for identity |
| KeySpace.PlainFoundIff | internal/cache/engine.go:730-739 | while no names are recorded, requests without an Origin find the plain response, and those with one find nothing |
| KeySpace.RenewalFoundIff | internal/cache/engine.go:1071-1079 | after a renewal, the same request finds the entry if and only if there are names or it has no Origin |
| RenewalBodies.FillKeepsSound | internal/cache/engine.go:442-461 | storing a response with a body of its own leaves no record without its file |
| RenewalBodies.RenewalKeepsBodyIff | internal/cache/engine.go:442-460 | a renewal keeps its body on disk if and only if the names are those it was found under |
| RenewalBodies.RenewalKeepsSound | internal/cache/engine.go:442-460 | and a renewal under those names keeps its body on disk and leaves no record without its file, whatever expires meanwhile |
| RenewalBodies.ConfirmedNamesIff | internal/cache/engine.go:777-810 | after a fill, a 304 that leaves Vary as it was keeps the names if and only if Origin is not managed for the filled request and response, or Vary lists it |
| RenewalBodies.ConfirmedBodyIff | internal/cache/engine.go:1071-1079 | so the body of a fill that is then confirmed for the same request is still on disk, and the store sound, if and only if that holds |
| EngineModel.Engine.LookupEntry | internal/cache/engine.go:428-440 | finds the entry the key space holds for the request, whose bytes were received for the URL |
| EngineModel.CachedIff | internal/cache/engine.go:640-676 | in fields: a request is cached if and only if the policy caches, the method is GET or HEAD, and there is no Authorization, no Cookie and no Range; every field but the seven named is sent on as it is |
| EngineModel.PlanAsks | internal/cache/engine.go:1038-1048 | the origin is asked with GET for the URL, on the condition that the Etag or Last-Modified found have changed if the policy is led by it, with the client's other fields |
| EngineModel.EntryIs | internal/cache/engine.go:480-512 | an entry has the status, the body and every field of the response that is kept, under the rule and the windows decided on |
| EngineModel.ResultIs | internal/cache/engine.go:594-625 | and so has the answer made of it |
| EngineModel.ServesOnErrorIff | internal/cache/engine.go:627-638 | an entry stands in for a failing origin up to the last bound its policy allows |
| EngineModel.Engine.EntryWindows | internal/cache/engine.go:480-512 | an entry of this policy was decided under the same settings, is fresh for the time to live decided at its last store or renewal, and has nested windows within about 97 years |
| EngineModel.Engine.Start | internal/cache/engine.go:203-271 | exactly when one pass hits, serves stale, leads or waits, and the plan it makes |
| EngineModel.Engine.StoreResponse | internal/cache/engine.go:442-461 | keeps the invariant, with the whole new state of the store |
| EngineModel.Engine.NamesKeptIff | internal/cache/engine.go:1071-1079 | a renewal keeps its names if and only if it is not stored or the Vary of the merged fields lists the names recorded; a 304 without Vary leaves the list of the entry |
| EngineModel.Engine.CompleteRevalidation | internal/cache/engine.go:1062-1088 | body and status stay, the windows are those of a fill with the merged fields, and the store stays sound exactly if the names stay |
| EngineModel.Engine.RevalidatedResult | internal/cache/engine.go:318-328 | renews exactly on a 304 to a conditional plan, to the store completeRevalidation gives, and releases once; no record is left without its file if the names stay; does nothing otherwise |
| EngineModel.Engine.CompleteFill | internal/cache/engine.go:273-299 | stores exactly what the decision says, or removes the body, and releases once; a response with a part of Cache-Control named no-store or private is never stored under a policy led by the origin |
| EngineModel.Engine.AbortFill | internal/cache/engine.go:301-304 | removes the body and releases once |
| EngineModel.Engine.HandleFillError | internal/cache/engine.go:306-312 | a stale answer exactly when policy and windows allow one, and one release |
| EngineModel.Engine.HandlePlan | internal/cache/engine.go:185-200 | the answer and the whole new state of the store for each kind of reply, and one release on every path; a miss answers with a body path that is gone |
| EngineModel.Engine.FillInBackground | internal/proxy/router.go:206-264 | one request, one release on every path, and the whole new state of the store: renewed after a 304 without its empty body, with the reply stored if it may be, and as it was after a failure; no record left without its file if a renewal keeps its names |
| EngineModel.Engine.StreamReply | internal/proxy/router.go:397-472 | one release whatever fails while streaming; exactly the bytes up to a failed copy reach the client; the reply is stored if it may be, and nothing is left of one that was too large or whose copy failed |
| EngineModel.Engine.StreamFill | internal/proxy/router.go:359-473 | one request and one release on every path; exactly when the client gets the stored entry, an error, or the origin's bytes, and the whole new state of the store; no record left without its file if a renewal keeps its names |
| EngineModel.Engine.WriteResult | internal/proxy/router.go:266-299 | sends the body file, or the body, and nothing for HEAD |
| EngineModel.Engine.AnswersCounted | internal/cache/engine.go:627-638 | a fresh entry is within the time to live counted from its last store or renewal, a stale one not yet invalid |
| EngineModel.Engine.SoundHasBody | internal/proxy/router.go:266-299 | on a sound store the entry found has its body when it is to be sent, if a renewal keeps its names |
| EngineModel.Engine.RenewedBodyIff | internal/cache/engine.go:1071-1079 | and a renewed one, if nothing expires, only if it does |
| EngineModel.Engine.ServePlan | internal/proxy/router.go:359-473 | a foreground plan in terms of the state before: what is sent and whether all of it, the one request and the one release |
| EngineModel.Engine.Serve | internal/proxy/router.go:172-203 | on the state before: a hit exactly if the entry a lookup finds is fresh, or this plan's own request is answered with 304; a stale answer exactly within an optimistic window, or after a failure within the windows that allow it; freshness counted from the last store or renewal under the same settings; the bytes received for the URL are sent exactly if the body is there, as it is on a sound store unless a renewal has changed its names, and nothing otherwise; the whole new state of the store; what was sent to the origin under the key was sent for this URL |
| EngineModel.Engine.MissThenHit | internal/cache/engine.go:203-299 | a reply that may be stored is found by the same request next, unless something expires meanwhile, and answers it as a hit exactly for the time to live decided on it |
| RenewalExamples.LostByConfirmation | internal/cache/engine.go:1062-1088 | a sound store, an origin and a policy that meet every requirement: a GET with Origin is told of a hit after a 304 without any field, and gets none of the body |
| Purging.PurgeEngineUrl | internal/cache/engine.go:404-426 | exactly the URL's entries and names are gone, and counted |
| Purging.PurgeRangeUrl | internal/cache/range.go:151-188 | exactly the range records under the URL's prefixes are gone, and counted |
| Purging.PurgeUrl | internal/proxy/router.go:78-88 | no request for the URL finds anything in either cache; exactly its keys and those its prefixes reach are gone, and counted; no other URL loses its names, or its plain response unless its key goes on like a variant of this one |
| Purging.RangePurgeReaches | internal/cache/range.go:1104-1106 | a purge takes exactly the metadata of keys that extend the URL's, longer URLs included |
| Purging.PurgeSite | internal/proxy/router.go:66-76 | exactly the records under the site's prefixes are gone, and counted |
| Purging.SiteKeysExact | internal/cache/engine.go:715-721 | those are the site's own records if and only if site ids have no bar |
| Sharing.EngineLeavesRange | internal/cache/engine.go:442-461 | the engine's work on any URL leaves the range records of every URL alone |
| Sharing.RangeLeavesRange | internal/cache/range.go:1088-1118 | the range cache's work on one URL leaves those of any URL alone of whose base keys neither starts with the other |
| Sharing.RangeLeavesEngine | internal/cache/range.go:683-699 | and the key space and entries of every URL |
| Sharing.StoreKeepsOthersGood | internal/cache/engine.go:442-461 | storing a response keeps what the range cache knows of any URL apart |
| Sharing.StoreKeepsGoodIff | internal/cache/range.go:196-226 | and of the URL itself exactly if the response, when it names a length, carries the whole body, which the range cache does not check |
| Sharing.PurgeKeepsGood | internal/cache/range.go:135-188 | a purge that takes all of a URL's range records or none keeps what the range cache knows of it |
| Sharing.UrlPurgeKeepsGood | internal/cache/range.go:151-188 | so a purge by URL does, for the URL and those whose base keys are separate |
| Sharing.LongerUrlPurgeIff | internal/cache/range.go:151-188 | for a URL whose base key extends the purged one, exactly if no chunk of it is left: its metadata goes, its chunks may stay |
| Sharing.SitePurgeKeepsGood | internal/cache/range.go:135-149 | and a purge by site for every URL |
| Sharing.UrlPurgeKeepsKeySpace | internal/cache/engine.go:404-426 | the same for the engine's key space, by URL |
| Sharing.SitePurgeKeepsKeySpace | internal/cache/engine.go:392-402 | and by site |
| Routing.Router.DatedEntryOk | internal/cache/engine.go:273-299 | an entry built from whole replies carries the whole body, so the range cache may serve from it |
| Routing.Router.TryRange | internal/proxy/router.go:152-171 | a range operation on one URL of the family keeps both caches' invariants for all |
| Routing.Router.Regularly | internal/proxy/router.go:172-203 | so does the engine's work, if replies that may be stored are whole and a renewal on the way keeps its names |
| Routing.Router.Answer | internal/proxy/router.go:151-203 | one request keeps them all, is answered by one of the two caches, and a full response that answers a range is accounted for as the engine's hits are; hits and stale answers of the engine are sent whole unless just renewed under other names |
| Routing.Router.PurgeUrl | internal/proxy/router.go:78-88 | a purge by URL keeps them all, and takes exactly its keys |
| Routing.Router.PurgeSite | internal/proxy/router.go:66-76 | so does a purge by a site id without a bar |
| Policies.TagDeterminesPolicy | internal/cache/engine.go:133-149 | for valid rules the tag determines rule, mode, optimism and durations |
| Policies.ModesAre | internal/model/config.go:69-81 | which mode each name stands for, and that there are no other names |
| Policies.SameTagSameSettings | internal/cache/engine.go:133-149 | two policies of valid rules with one tag are the same but for the site |
| Config.ValidateRule | internal/model/config.go:304-372 | accepts exactly the valid rules for their place |
| Config.ClauseValidIff | internal/model/config.go:374-428 | a clause is valid if and only if its field has the comparison, plain or negated, and it says what to compare with, and which header |
| Config.ActionValidIff | internal/model/config.go:312-334 | an action is valid if and only if its mode is one of the four, durations are given for the managed modes alone and are positive, and a bypass is not optimistic |
| Config.ValidateSite | internal/model/config.go:196-271 | accepts exactly the valid sites |
| Config.UpstreamValidIff | internal/model/config.go:213-253 | an upstream is valid if and only if its address is a bare http or https one, and it has a host of its own exactly in the custom mode |
| Config.Validate | internal/model/config.go:170-194 | accepts exactly the configurations of valid sites with distinct ids and hosts |
| Runtime.CompileSite | internal/runtime/runtime.go:79-110 | the compiled site, or none exactly if no compiled site fits: see SiteCompiledIff |
| Runtime.RuleCompiledIff | internal/runtime/runtime.go:112-129 | a compiled rule has a time to live exactly if its rule names one, the parsed and positive one, the same for stale-if-error, and the rule's optimism |
| Runtime.SiteCompiledIff | internal/runtime/runtime.go:79-110 | a compiled site has the parsed address of its upstream, the host that each host mode names, and its rules, each compiled in its place |
| Runtime.CompiledPolicyIs | internal/cache/engine.go:133-149 | the policy of a compiled rule has the mode, the two durations, the optimism and the tag of that rule |
| Runtime.Compile | internal/runtime/runtime.go:57-77 | a snapshot exactly if every site compiles: each site compiled in its place, and every host found at the last site that owns it |
| Runtime.ValidSitesCompile | internal/runtime/runtime.go:57-129 | whatever validates, compiles |
| Runtime.HostLookupIsSearch | internal/runtime/runtime.go:131-137 | for valid configurations the host index finds exactly the one owner a search would |
| Runtime.MatchesRule | internal/runtime/runtime.go:153-175 | the one-pass matcher is true exactly if some block of the displayed grouping has all clauses true |
| Runtime.ClauseMeans | internal/runtime/runtime.go:177-250 | a clause holds if and only if its comparison does, and a negated one if and only if it does not: on the host and the method without regard to case, on the path, with and without its first slash for a pattern, and on the named header |
| Runtime.MatchRule | internal/runtime/runtime.go:139-151 | the first enabled rule that matches |
| Runtime.ValidSiteRoutes | internal/runtime/runtime.go:139-151 | a valid site always has a rule that applies |
| Grouping.GroupsMeaning | web/src/lib/rule-helpers.ts:195-202 | grouping keeps the order and cuts exactly before each "or" |
| Grouping.PushTruth | internal/runtime/runtime.go:162-172 | what one more clause does to the two accumulators |
| ServiceModel.InsertedValid | internal/app/service.go:225-232 | a rule inserted before the catch-all is accepted exactly if it is valid there and its id is new |
| ServiceModel.ReplacedValid | internal/app/service.go:258-267 | a replacement is accepted exactly if it is valid in its place |
| ServiceModel.ReplacementIff | internal/app/service.go:258-267 | a rule keeps its id and kind and becomes what is given, except that a system rule stays enabled and goes on to catch all |
| ServiceModel.NewSiteIs | internal/app/service.go:128-146 | a new site is as given, under a new id if none is given, with one rule: a system rule that matches every request and leaves it to what the origin says |
| ServiceModel.DeletedValid | internal/app/service.go:292-297 | any rule but a system rule can go |
| ServiceModel.SiteCreatedValid | internal/app/service.go:129-146 | a created site, with its default rule, is accepted exactly if its settings are valid, its id is new and its hosts are free |
| ServiceModel.SiteUpdatedValid | internal/app/service.go:171-184 | new settings are accepted exactly if they are valid and all hosts stay distinct |
| ServiceModel.SiteDeletedValid | internal/app/service.go:192-203 | any site can go |
| ServiceModel.Reorder | internal/app/service.go:309-332 | succeeds exactly on a permutation of the ids, and yields the rules in that order |
| ServiceModel.ReorderedValid | internal/app/service.go:302-334 | reordered rules are valid exactly if the catch-all is last |
| ServiceModel.Service.Update | internal/app/service.go:88-126 | commits exactly the valid changes that can be saved, and otherwise changes neither configuration nor snapshot; the live snapshot always reflects the configuration, site by site, rule by rule and host by host |
| ServiceModel.Service.CreateSite | internal/app/service.go:158-168 | the new site last, exactly if its settings are valid, its id is new, its hosts are free and the result is saved |
| ServiceModel.Service.UpdateSite | internal/app/service.go:170-190 | the site with the new settings and its old rules, exactly if the settings are valid, all hosts stay distinct and the result is saved |
| ServiceModel.Service.DeleteSite | internal/app/service.go:192-203 | exactly if the site exists and the result is saved |
| ServiceModel.Service.CreateRule | internal/app/service.go:214-244 | before the catch-all, exactly if valid there, new and saved |
| ServiceModel.Service.UpdateRule | internal/app/service.go:246-279 | in place, exactly if it exists and stays valid and is saved; the rule then has the name, the action and, unless it is a system rule, the conditions and the switch that were given |
| ServiceModel.Service.DeleteRule | internal/app/service.go:281-300 | exactly if it exists, is no system rule and the result is saved |
| ServiceModel.Service.ReorderRules | internal/app/service.go:302-345 | the requested order, exactly if it is a permutation keeping the catch-all last and is saved |
| RuleForm.SplitConditionGroups | web/src/components/rule-form-drawer.tsx:49-59 | the loop computes the grouping |
| RuleForm.RemoveRefinesGrouping | web/src/components/rule-form-drawer.tsx:143-167 | removing a condition removes it from its block, drops the block if empty, and leaves the others; without its only condition the form shows a blank one |
| RuleForm.InsertRefinesGrouping | web/src/components/rule-form-drawer.tsx:127-141 | "and" adds to the block after the given condition; "or" cuts the block there, which after its last condition adds a block of its own |
| RuleForm.BlocksAreGroups | web/src/components/rule-form-drawer.tsx:49-59 | the blocks the two lemmas speak of are the groups the form shows |
| RuleForm.RemoveCondition | web/src/components/rule-form-drawer.tsx:143-167 | in terms of the blocks shown: the condition is gone from its block, the block too if it was alone there, and a form left empty shows one blank condition |
| RuleForm.InsertCondition | web/src/components/rule-form-drawer.tsx:127-141 | in terms of the blocks shown: with "and" a blank condition joins the block of the given one, right after it; with "or" it cuts the block there |
| RuleForm.FormBlocksAreRuleBlocks | web/src/lib/rule-helpers.ts:195-202 | the form's blocks hold exactly when the runtime's matcher does |
| RuleForm.ConditionSaved | web/src/lib/rule-helpers.ts:109-117 | a condition is saved with its trimmed value, which a test for existence has none of, and a name only for a header |
| RuleForm.FormSaved | web/src/lib/rule-helpers.ts:149-168 | a form is saved under its trimmed name or a placeholder, a system rule enabled and catching all, and never optimistic for a bypass |
| RuleForm.ClauseRoundTrip | web/src/lib/rule-helpers.ts:98-117 | a trimmed clause holds for the same requests after the form |
| RuleForm.ClauseRoundTripIff | web/src/lib/rule-helpers.ts:98-117 | a valid clause without a glob comes back meaning the same for all requests if and only if it is trimmed |
| RuleForm.RuleRoundTrip | web/src/lib/rule-helpers.ts:137-168 | so does a rule of trimmed clauses, if exactly the system rules catch all |
| RuleForm.RuleRoundTripIff | web/src/lib/rule-helpers.ts:137-168 | a rule of trimmed clauses comes back matching the same requests if and only if it is a system rule that matches all, or neither a system rule nor a catch-all; whatever its clauses, a system rule comes back matching all, and a catch-all that is none matching nothing |
| RuleForm.OpenedRules | web/src/components/rule-form-drawer.tsx:78-82 | the drawer opens a valid rule as it is; one without conditions that is no system rule gets a blank condition and cannot be saved until that is filled in |
| RuleForm.OneClauseRuleIff | web/src/lib/rule-helpers.ts:137-168 | and a rule of one clause without a glob, if and only if that is trimmed |
| Telemetry.HistogramCounts | internal/telemetry/helpers.go:67-77 | one count, in the first bucket the duration fits |
| Telemetry.AddEvent | internal/telemetry/service.go:422-423 | adding an event's histogram keeps the counts those of all events |
| Telemetry.BelowSameForAnyOrder | internal/telemetry/helpers.go:91-94 | running counts do not depend on the order of events |
| Telemetry.SortedBelow | internal/telemetry/helpers.go:91-94 | in sorted order, the durations below a bucket are the first ones |
| Telemetry.EstimatePercentile | internal/telemetry/helpers.go:79-102 | the bound of the bucket of the k-th smallest duration, k = max(1, floor(p n)); 2501 for the overflow bucket, 0 for none |
| Telemetry.RankExists | internal/telemetry/helpers.go:87-90 | for p up to 1 that rank exists |

## Left out

- Store errors: database and file operations succeed. In a chunk fill the error path builds a value of another type than the one asserted (internal/cache/range.go:436-442, 472).
- Interleaving of range cache operations of one process at the granularity of store accesses; the fill protocol of the engine is modelled with all interleavings.
- RangeCaching.RangeCache.FetchAndMaybeStoreChunk: equal chunk fetches that run at the same time share one reply (internal/cache/range.go:388-485); each fetches for itself here.
- RangeCaching.RangeCache.Respond: completeness of a miss is stated for a steady origin, and for a store that agrees with it or holds no chunk; otherwise a later chunk may delete the file of an earlier part, as FetchAndMaybeStoreChunk says.
- RangeCaching.RangeCache.Handle: the origin body is fixed and not empty, the origin honours the requested chunk, and a stored full response with a length carries the whole body (`StoreKeepsGoodIff` says when it does): the code checks neither the start of a Content-Range nor the status of the stored response.
- The version part of the range cache's invariant is promised until a record expires, whichever URL it belongs to; `expired` is one flag for the whole store. The bytes, the crash, freshness and all that concerns hits and stale answers do not depend on it.
- Routing.Router.Answer: URLs none of whose base keys starts with another's. Where one does, a purge of the shorter URL, a change of its names or a refused renewal takes the chunk metadata of the longer one and leaves its chunks, with what `RangePurgeReaches` and `LongerUrlPurgeIff` say exactly; the engine's part (`StoreIsForeign`, `WithinKeepsOthers`) needs less.
- RangeCaching.RangeCache.PlanFill: a fill never gives up for lack of indexes, so that branch (internal/cache/range.go:275-277) and the checks after the loop that cannot fail (internal/cache/range.go:358-364) have no statement here.
- EngineModel.Engine.Serve: the origin sees a URL through its key, so URLs that share one, exactly those of `KeysCollideIff` and `WrittenAlikeIff`, are one URL here: a decoded path `/a?x=1` without a query and the path `/a` with the query `x=1` (`KeysThatCollide`). One pass of the start loop; waiting and coming back are steps of FillProtocol, and giving up when the client goes away is one of them. The refill behind a stale answer runs after it is sent; beside it, it could remove the file before that is opened.
- EngineModel.Engine.CompleteFill: a lookup finds the entry again for fields that are not If-None-Match or If-Modified-Since, since a conditional plan stores under the fields it sent; `FillFoundIff` is about those.
- Freshness.StorableWindows: max-age wins over no-cache and the upstream Age is not subtracted, as in the code; conformance to RFC 9111 beyond what is stated is not claimed.
- Ages, Cache-Status texts and the X- fields of responses; text that is appended to a response when a body cannot be opened.
- Unicode white space and case folding, canonicalisation of header names beyond ASCII.
- SHA-256, taken as injective where a statement says so; HTTP dates, URLs, host normalisation, durations and globs, which are parameters.
- RuleForm.ClauseRoundTripIff: globs, whose matching is a parameter, come back the same if trimmed; untrimmed ones may or may not. Rules with several clauses, some of them untrimmed, are not characterised: one clause may make up for another.
- RuleForm.RuleRoundTripIff: the two conversions alone; a catch-all that is no system rule is not saved from the drawer as it comes back there, but as `OpenedRules` says.
- Telemetry.EstimatePercentile: the percentile is a real number, without floating point rounding.
- Config, as files: YAML and JSON, and the clone through JSON, taken as the identity.
- The engine's unused background refresh, authentication, the telemetry queue, log pages, the admin interface and the rendering of components.
