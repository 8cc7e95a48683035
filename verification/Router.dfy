/** The router's dispatch between the two caches, for a family of URLs none of whose base
    keys starts with another's: what one request does keeps all of them right. */
module Routing {
  import opened Text
  import opened Headers
  import opened CacheKeys
  import opened Freshness
  import opened Policies
  import opened BlobStore
  import opened RangeModel
  import RC = RangeCaching
  import opened Purging
  import opened KeySpace
  import opened Sharing
  import E = EngineModel

  // What a request comes to: an answer of the range cache, its failure, its crash, or
  // what the engine makes of it.
  datatype Routed =
    | RangeSent(result: RC.RangeResult, written: seq<Byte>, complete: bool)
    | RangeFailed
    | RangeCrashed
    | Regular(response: E.Response)

  // A reply that may be stored, and names a length, carries the whole body.
  ghost predicate WholeReply(u: Url, reply: RC.FetchReply) {
    reply.Reply? && reply.status in CACHEABLE_STATUSES && reply.contentLength > 0 ==>
      reply.body == u.body && reply.contentLength == |u.body|
  }

  // A request with a range the range cache takes on is none the engine takes on.
  lemma OneCacheEach(request: RC.Request, policy: Policy)
    ensures RC.PrepareRange(request, policy).Some? ==> E.PrepareRequest(request, policy).None?
  {
    assert TrimSpace("") == "";
  }

  class Router {
    const engine: E.Engine
    const ranges: RC.RangeCache

    constructor (engine: E.Engine, ranges: RC.RangeCache)
      ensures this.engine == engine && this.ranges == ranges
    {
      this.engine, this.ranges := engine, ranges;
    }

    // All replies to the engine's requests for the URL are whole.
    ghost predicate WholeReplies(u: Url)
      reads engine`ledger
    {
      forall n :: 0 <= n < |engine.ledger.log| && engine.ledger.log[n].base == u.base ==>
        WholeReply(u, engine.ReplyOf(engine.ledger.log, n))
    }

    // One store, and both invariants for every URL of the family.
    ghost predicate Valid(urls: iset<Url>)
      reads engine, ranges, engine.store, ranges.store
    {
      engine.store == ranges.store && engine.parseDuration == ranges.parseDuration &&
      (forall u, v :: u in urls && v in urls && u != v ==> Separate(u.base, v.base)) &&
      forall u :: u in urls ==> ranges.Inv(u) && engine.Inv(u.base)
    }

    // What a range operation on one of the URLs leaves of the others, and of the engine.
    lemma RangeKeepsValid(u: Url, v: Url, st: StoreState, st': StoreState, fetches: Fetches, fetches': Fetches,
                          ledger: E.Ledger, ticks: nat)
      requires Separate(u.base, v.base) && Evolves(u.base, st, st') && Learns(fetches, fetches')
      requires Good(v, st, fetches) && Sound(st')
      ensures Good(v, st', fetches')
    {
      hide Good, Sound, Separate, LeavesRange, KeepsAt, EntriesOk, Evolves;
      EvolvesFacts(u.base, st, st');
      RangeLeavesRange(u.base, v.base, st, st');
      RangeLeavesEngine(u.base, v.base, st, st');
      GoodEntries(v, st, fetches);
      EntriesStayOk(v, st, st');
      LeavesGood(v, st, st', fetches, fetches');
    }

    // The engine's part of the invariant for one URL, apart from its log.
    ghost predicate EngineHas(base: string, st: StoreState, ledger: E.Ledger) {
      NamesFresh(st) && KeySpaceOk(engine.digest, base, st) && engine.EntriesDated(base, st, ledger)
    }

    lemma KeepsEngine(base: string, st: StoreState, st': StoreState, ledger: E.Ledger, ledger': E.Ledger)
      requires EngineHas(base, st, ledger) && KeepsAt(base, st, st') && Sound(st') && E.Learns(ledger, ledger')
      ensures EngineHas(base, st', ledger')
    {
      hide IsObjectKey, VaryKey;
      LossKeeps(engine.digest, base, st, st');
    }

    // Entries that are dated carry the whole body if their replies did.
    lemma DatedEntriesOk(u: Url, st: StoreState)
      requires engine.LogHolds(engine.ledger, engine.ticks, st.history) &&
               engine.EntriesDated(u.base, st, engine.ledger)
      requires WholeReplies(u) && 0 < |u.body|
      ensures EntriesOk(u, st)
    {
      hide IsObjectKey, E.Engine.LogHolds, EntryOk;
      forall k | k in st.records && IsObjectKey(u.base, k) && st.records[k].EntryRecord?
        ensures EntryOk(u, st.history, st.records[k].entry)
      {
        DatedEntryOk(u, st.history, st.records[k].entry);
      }
    }

    lemma DatedEntryOk(u: Url, history: Files, entry: Entry)
      requires engine.LogHolds(engine.ledger, engine.ticks, history) && (u.base, entry) in engine.ledger.dated
      requires WholeReplies(u) && 0 < |u.body|
      ensures EntryOk(u, history, entry)
    {
      hide MergeRevalidated, HasValidators, SanitizeStored, RulePolicy, WindowsAt, ParseCacheControl, Ttl, ParseVary;
      var d := engine.ledger.dated[(u.base, entry)];
      assert engine.Dated(engine.ledger, engine.ticks, history, u.base, entry, d);
      assert entry.response.status in CACHEABLE_STATUSES;
      assert WholeReply(u, engine.ReplyOf(engine.ledger.log, d.source));
    }

    // What the engine's work on one URL leaves of the range cache's knowledge of another,
    // or of the same if the replies are whole.
    lemma EngineKeepsGood(base: string, v: Url, st: StoreState, st': StoreState, fetches: Fetches)
      requires StaysWithin(base, st, st') && Good(v, st, fetches) && Sound(st') && EntriesOk(v, st')
      ensures Good(v, st', fetches)
    {
      hide Good, Sound, LeavesRange, EntriesOk, StaysWithin;
      EngineLeavesRange(base, v.base, st, st');
      LeavesGood(v, st, st', fetches, fetches);
    }

    // After the range cache has worked on one of the URLs, all is well for every one.
    lemma AfterRange(urls: iset<Url>, u: Url, v: Url, st: StoreState, st': StoreState, fetches: Fetches,
                     fetches': Fetches)
      requires u in urls && v in urls && forall x, y :: x in urls && y in urls && x != y ==> Separate(x.base, y.base)
      requires Evolves(u.base, st, st') && Learns(fetches, fetches') && Good(v, st, fetches) && Good(u, st', fetches')
      requires EngineHas(v.base, st, engine.ledger) && engine.LogHolds(engine.ledger, engine.ticks, st.history)
      ensures Good(v, st', fetches') && EngineHas(v.base, st', engine.ledger)
      ensures engine.LogHolds(engine.ledger, engine.ticks, st'.history)
    {
      hide Good, Separate, Evolves, EngineHas, E.Engine.LogHolds, KeepsAt, Sound;
      GoodFacts(u, st', fetches');
      EvolvesFacts(u.base, st, st');
      if v != u { RangeKeepsValid(u, v, st, st', fetches, fetches', engine.ledger, engine.ticks); }
      RangeLeavesEngine(u.base, v.base, st, st');
      E.LearnsReflexive(engine.ledger);
      KeepsEngine(v.base, st, st', engine.ledger, engine.ledger);
      engine.LogGrows(engine.ledger, engine.ticks, st.history, engine.ledger, engine.ticks, st'.history);
    }

    // Lets the range cache answer, if it takes the request on.
    method TryRange(ghost urls: iset<Url>, ghost u: Url, path: string, rawQuery: string, request: RC.Request,
                    policy: Policy, ghost steady: RC.Steady)
      returns (r: RC.RangeOutcome, written: seq<Byte>, complete: bool)
      requires Valid(urls) && u in urls && ranges.HonestOrigin(u)
      requires u.base == BaseKey(policy.siteId, path, rawQuery) && RulePolicy(ranges.parseDuration, policy)
      modifies ranges.store, ranges`ticks, ranges`calls, ranges`fetches, ranges`asked
      ensures Valid(urls)
      ensures RangeAnswered(u, request, policy, old(ranges.store.State()), old(ranges.ticks), old(ranges.calls), steady,
                            r, written, complete)
    {
      hide Good, Separate, Evolves, EngineHas, E.Engine.LogHolds, RC.RangeCache.LogHolds, BarFree, Sound, KeySpaceOk,
           E.Engine.EntriesDated, NamesFresh,
           RC.RangeCache.HonestOrigin, RC.RangeCache.Justified, RC.SentSelection, RC.RangeCache.SteadyOrigin,
             RC.RangeCache.Settled, RC.RangeCache.FullFresh,
           RC.RangeCache.Refused, RC.RangeCache.ForChunks, RulePolicy, Learns;
      ghost var st0, fetches0 := ranges.store.State(), ranges.fetches;
      r, written, complete := ranges.Respond(u, path, rawQuery, request, policy, steady);
      forall v | v in urls
        ensures Good(v, ranges.store.State(), ranges.fetches) && EngineHas(v.base, ranges.store.State(), engine.ledger)
        ensures engine.LogHolds(engine.ledger, engine.ticks, ranges.store.history)
      {
        HasEngine(v, st0);
        AfterRange(urls, u, v, st0, ranges.store.State(), fetches0, ranges.fetches);
        EngineHasFacts(v.base, ranges.store.State(), engine.ledger);
      }
      forall v | v in urls
        ensures ranges.Inv(v) && engine.Inv(v.base)
      {
        EngineHasFacts(v.base, ranges.store.State(), engine.ledger);
      }
    }

    lemma HasEngine(v: Url, st: StoreState)
      ensures NamesFresh(st) && KeySpaceOk(engine.digest, v.base, st) &&
              engine.EntriesDated(v.base, st, engine.ledger) ==>
                EngineHas(v.base, st, engine.ledger)
    {
    }

    lemma EngineHasFacts(base: string, st: StoreState, ledger: E.Ledger)
      requires EngineHas(base, st, ledger)
      ensures NamesFresh(st) && KeySpaceOk(engine.digest, base, st) && engine.EntriesDated(base, st, ledger)
    {
    }

    // What the range cache answers.
    ghost predicate RangeAnswered(u: Url, request: RC.Request, policy: Policy, st: StoreState, tick: nat, call: nat,
                                  steady: RC.Steady,
                                  r: RC.RangeOutcome, written: seq<Byte>, complete: bool)
      reads ranges, ranges.store
    {
      match RC.PrepareRange(request, policy)
      case None => r.NotServed? && ranges.store.State() == st
      case Some((h, spec)) =>
        ranges.RespondedWell(u, RC.Occasion(u.base, policy, h, spec, st, tick, call), ranges.store.State(),
                             ranges.asked, ranges.ticks,
                             ranges.fetches.objects, steady, r, written, complete)
    }

    // A fresh full response that answers a range is accounted for by the engine.
    lemma FullAccounted(base: string, h: Header, policy: Policy, st: StoreState)
      requires EngineHas(base, st, engine.ledger) && engine.LogHolds(engine.ledger, engine.ticks, st.history)
      requires BarFree(engine.parseDuration) && RulePolicy(engine.parseDuration, policy)
      ensures FullEntryAccounted(base, h, policy, st)
    {
      hide E.Engine.LogHolds, BarFree, RulePolicy, Lapse, IsObjectKey, LookupKey, E.Engine.Accounted, KeySpaceOk,
           NamesFresh;
      var st1, st2 := Lapse(ranges.store.world, st), ranges.AfterLookup(st);
      var key := LookupKey(ranges.digest, base, h, VaryAt(st1, VaryKey(base)));
      RC.KeysAreObjectKeys(ranges.digest, base, [], h, VaryAt(st1, VaryKey(base)));
      RC.LapsedEntries(ranges.store.world, st, key);
      RC.LapsedEntries(ranges.store.world, st1, key);
      var entry := ranges.FullEntry(st, base, h);
      if entry.Some? && entry.value.policyTag == policy.policyTag {
        assert EntryAt(st, key) == entry;
        engine.EntryWindows(engine.ledger, engine.ticks, st.history, base, entry.value, policy);
      }
    }

    // After the engine has worked on one of the URLs, all is well for every one, if the
    // store is sound and replies are whole.
    lemma AfterEngine(urls: iset<Url>, u: Url, v: Url, st: StoreState, st': StoreState, fetches: Fetches,
                      ledger: E.Ledger)
      requires u in urls && v in urls && forall x, y :: x in urls && y in urls && x != y ==> Separate(x.base, y.base)
      requires StaysWithin(u.base, st, st') && Sound(st') && Good(v, st, fetches) && EngineHas(v.base, st, ledger)
      requires EngineHas(u.base, st', engine.ledger) && E.Learns(ledger, engine.ledger) && WholeReplies(v)
      requires engine.LogHolds(engine.ledger, engine.ticks, st'.history)
      ensures Good(v, st', fetches) && EngineHas(v.base, st', engine.ledger)
    {
      hide Good, Separate, EngineHas, E.Engine.LogHolds, KeepsAt, Sound, StaysWithin, WholeReplies, E.Learns;
      if v != u {
        SeparateIsApart(u.base, v.base);
        WithinKeepsOthers(u.base, v.base, st, st');
        KeepsEngine(v.base, st, st', ledger, engine.ledger);
      }
      GoodFacts(v, st, fetches);
      EngineHasFacts(v.base, st', engine.ledger);
      DatedEntriesOk(v, st');
      EngineKeepsGood(u.base, v, st, st', fetches);
    }

    // Lets the engine serve.
    method Regularly(ghost urls: iset<Url>, ghost u: Url, path: string, rawQuery: string, request: RC.Request,
                     policy: Policy, faults: E.Faults)
      returns (r: E.Response)
      requires Valid(urls) && u in urls && u.base == BaseKey(policy.siteId, path, rawQuery) &&
               RulePolicy(engine.parseDuration, policy)
      modifies engine.store, engine.table, engine`ticks, engine`calls, engine`ledger
      ensures RegularlyAnswered(u, request, policy, old(engine.store.State()), old(engine.ticks), old(engine.calls),
                                old(engine.table.fills), faults, r)
      ensures SentWhole(u, request, policy, old(engine.store.State()), old(engine.ticks), old(engine.calls),
                        old(engine.table.fills), r)
      ensures (forall v :: v in urls ==> WholeReplies(v)) &&
              StaysSafe(u, request, policy, old(engine.store.State()), old(engine.ticks), old(engine.calls),
                        old(engine.table.fills)) ==>
                Valid(urls)
    {
      hide Good, Separate, EngineHas, E.Engine.LogHolds, RC.RangeCache.LogHolds, BarFree, Sound, KeySpaceOk,
           E.Engine.EntriesDated, NamesFresh, StaysWithin,
           E.Engine.ServedWell, E.Engine.IsSafe, E.Engine.Leads, E.Engine.LookedKey, RulePolicy, WholeReplies, E.Learns,
             E.Engine.FillsKept;
      ghost var st0, ledger0 := engine.store.State(), engine.ledger;
      ghost var fills, tick, call := engine.table.fills, engine.ticks, engine.calls;
      GoodEntries(u, st0, ranges.fetches);
      r := engine.Serve(policy.siteId, path, rawQuery, request, policy, faults);
      SoundSentWhole(u, request, policy, st0, tick, call, fills, faults, r);
      if (forall v :: v in urls ==> WholeReplies(v)) && StaysSafe(u, request, policy, st0, tick, call, fills) {
        ghost var st1 := engine.store.State();
        HasEngine(u, st1);
        WithinGrows(u.base, st0, st1);
        forall v | v in urls
          ensures Good(v, st1, ranges.fetches) && EngineHas(v.base, st1, engine.ledger)
        {
          HasEngineBefore(v, st0, ledger0);
          AfterEngine(urls, u, v, st0, st1, ranges.fetches, ledger0);
        }
        forall v | v in urls
          ensures ranges.Inv(v) && engine.Inv(v.base)
        {
          EngineHasFacts(v.base, st1, engine.ledger);
        }
      }
    }

    lemma HasEngineBefore(v: Url, st: StoreState, ledger: E.Ledger)
      ensures NamesFresh(st) && KeySpaceOk(engine.digest, v.base, st) && engine.EntriesDated(v.base, st, ledger) ==>
                EngineHas(v.base, st, ledger)
    {
    }

    // What the engine answers.
    ghost predicate RegularlyAnswered(u: Url, request: RC.Request, policy: Policy, st: StoreState, tick: nat, call: nat,
                                      fills: map<string, nat>, faults: E.Faults, r: E.Response)
      reads engine
    {
      match E.PrepareRequest(request, policy)
      case None => r.PassedThrough?
      case Some(h) => engine.ServedWell(E.Turn(u.base, h, request.verb, policy, st, tick, call, fills), faults,
                                        engine.ledger, r)
    }

    // A hit or a stale answer is sent as a whole, unless it has just been renewed under
    // other names.
    ghost predicate SentWhole(u: Url, request: RC.Request, policy: Policy, st: StoreState, tick: nat, call: nat,
                              fills: map<string, nat>, r: E.Response) {
      match E.PrepareRequest(request, policy)
      case None => true
      case Some(h) =>
        var t := E.Turn(u.base, h, request.verb, policy, st, tick, call, fills);
        r.Sent? && r.state in {E.Hit, E.Stale} && (engine.IsRenewed(t) ==> engine.IsSafe(t)) ==> r.complete
    }

    lemma SoundSentWhole(u: Url, request: RC.Request, policy: Policy, st: StoreState, tick: nat, call: nat,
                         fills: map<string, nat>, faults: E.Faults, r: E.Response)
      requires Sound(st) && RegularlyAnswered(u, request, policy, st, tick, call, fills, faults, r)
      ensures SentWhole(u, request, policy, st, tick, call, fills, r)
    {
      hide Sound, E.Engine.IsSafe, E.Engine.IsRenewed, E.Engine.IsFresh, E.Engine.IsStale, E.Engine.FallsBack,
           E.Engine.Looked, E.Engine.HasBody, E.Engine.Contents, E.Engine.ReplyTo, E.Engine.Leads, E.Engine.LookedKey,
           E.PrepareRequest, E.Engine.FreshCounted, E.Engine.StaleCounted, E.Engine.Waits;
    }

    // No renewal on the way changes its names.
    ghost predicate StaysSafe(u: Url, request: RC.Request, policy: Policy, st: StoreState, tick: nat, call: nat,
                              fills: map<string, nat>) {
      match E.PrepareRequest(request, policy)
      case None => true
      case Some(h) => engine.IsSafe(E.Turn(u.base, h, request.verb, policy, st, tick, call, fills))
    }

    // Answers a request for one of the URLs. All URLs stay as they should be, as long as
    // replies that may be stored are whole and renewals keep their names.
    method Answer(ghost urls: iset<Url>, ghost u: Url, path: string, rawQuery: string, request: RC.Request,
                  policy: Policy, faults: E.Faults,
                  ghost steady: RC.Steady)
      returns (r: Routed)
      requires Valid(urls) && u in urls && ranges.HonestOrigin(u)
      requires u.base == BaseKey(policy.siteId, path, rawQuery) && RulePolicy(engine.parseDuration, policy)
      modifies engine.store, engine.table, engine`ticks, engine`calls, engine`ledger
      modifies ranges`ticks, ranges`calls, ranges`fetches, ranges`asked
      ensures (forall v :: v in urls ==> WholeReplies(v)) &&
              StaysSafe(u, request, policy, old(engine.store.State()), old(engine.ticks), old(engine.calls),
                        old(engine.table.fills)) ==>
                Valid(urls)
      ensures match RC.PrepareRange(request, policy)
              case None =>
                r.Regular? &&
                RegularlyAnswered(u, request, policy, old(engine.store.State()), old(engine.ticks), old(engine.calls),
                                  old(engine.table.fills), faults, r.response) &&
                SentWhole(u, request, policy, old(engine.store.State()), old(engine.ticks), old(engine.calls),
                          old(engine.table.fills), r.response)
              case Some((h, spec)) =>
                Valid(urls) && (r.Regular? ==> r.response.PassedThrough?) &&
                RangeAnswered(u, request, policy, old(engine.store.State()), old(ranges.ticks), old(ranges.calls),
                              steady,
                              OutcomeOf(r), WrittenOf(r), r.RangeSent? && r.complete) &&
                FullEntryAccounted(u.base, h, policy, old(engine.store.State()))
    {
      hide Valid, RegularlyAnswered, SentWhole, RC.RangeCache.HonestOrigin, RulePolicy, WholeReplies, E.PrepareRequest,
           RC.PrepareRange, StaysSafe,
           RC.RangeCache.RespondedWell, RangeAnswered, FullEntryAccounted;
      ghost var st0, tick0, call0 := ranges.store.State(), ranges.ticks, ranges.calls;
      ValidFacts(urls, u, policy);
      OneCacheEach(request, policy);
      ghost var prepared := RC.PrepareRange(request, policy);
      if prepared.Some? { FullAccounted(u.base, prepared.value.0, policy, st0); }
      var outcome, written, complete := TryRange(urls, u, path, rawQuery, request, policy, steady);
      AnsweredFacts(u, request, policy, st0, tick0, call0, steady, outcome, written, complete);
      match outcome
      case Served(result) => r := RangeSent(result, written, complete);
      case UpstreamError => r := RangeFailed;
      case Crashed => r := RangeCrashed;
      case NotServed =>
        var taken := E.PrepareRequest(request, policy);
        if taken.None? {
          r := Regular(E.PassedThrough);
          PassedThrough(u, request, policy, st0, engine.ticks, engine.calls, engine.table.fills, faults);
        } else {
          var response := Regularly(urls, u, path, rawQuery, request, policy, faults);
          r := Regular(response);
        }
    }

    lemma ValidFacts(urls: iset<Url>, u: Url, policy: Policy)
      requires Valid(urls) && u in urls
      ensures engine.store == ranges.store && engine.parseDuration == ranges.parseDuration &&
              BarFree(engine.parseDuration)
      ensures EngineHas(u.base, ranges.store.State(), engine.ledger)
      ensures engine.LogHolds(engine.ledger, engine.ticks, ranges.store.history)
    {
      hide Good, Separate, E.Engine.LogHolds, RC.RangeCache.LogHolds, BarFree, Sound, KeySpaceOk,
           E.Engine.EntriesDated, NamesFresh;
      assert engine.Inv(u.base);
    }

    lemma AnsweredFacts(u: Url, request: RC.Request, policy: Policy, st: StoreState, tick: nat, call: nat,
                        steady: RC.Steady,
                        r: RC.RangeOutcome, written: seq<Byte>, complete: bool)
      requires RangeAnswered(u, request, policy, st, tick, call, steady, r, written, complete)
      ensures !r.Served? ==> RangeAnswered(u, request, policy, st, tick, call, steady, r, [], false)
      ensures RC.PrepareRange(request, policy).None? ==> r.NotServed? && ranges.store.State() == st
    {
      hide RC.RangeCache.Justified, RC.RangeCache.FullFresh, RC.RangeCache.Refused, RC.RangeCache.ForChunks,
           RC.SentSelection,
           RC.RangeCache.SteadyOrigin, RC.RangeCache.Settled, RC.PrepareRange;
    }

    lemma PassedThrough(u: Url, request: RC.Request, policy: Policy, st: StoreState, tick: nat, call: nat,
                        fills: map<string, nat>, faults: E.Faults)
      requires E.PrepareRequest(request, policy).None?
      ensures RegularlyAnswered(u, request, policy, st, tick, call, fills, faults, E.PassedThrough)
      ensures SentWhole(u, request, policy, st, tick, call, fills, E.PassedThrough)
    {
    }

    // The full response that answers a range when it is fresh is dated, its time to live
    // counted under the same settings.
    ghost predicate FullEntryAccounted(base: string, h: Header, policy: Policy, st: StoreState)
      reads engine
    {
      var entry := ranges.FullEntry(st, base, h);
      entry.Some? && entry.value.policyTag == policy.policyTag ==>
        engine.Accounted(engine.ledger, base, entry.value, policy)
    }

    // Purges one URL from both caches.
    method PurgeUrl(ghost urls: iset<Url>, siteId: string, path: string, rawQuery: string) returns (deleted: nat)
      requires Valid(urls) && Sound(engine.store.State())
      requires forall v :: v in urls ==> v.base == BaseKey(siteId, path, rawQuery) ||
                                         Separate(BaseKey(siteId, path, rawQuery), v.base)
      modifies engine.store
      ensures Valid(urls) && Sound(engine.store.State())
      ensures Cleared(old(engine.store.State()), engine.store.State(),
                      UrlKeys(BaseKey(siteId, path, rawQuery)) + RangeUrlKeys(BaseKey(siteId, path, rawQuery)), deleted)
    {
      hide Good, Separate, EngineHas, E.Engine.LogHolds, RC.RangeCache.LogHolds, BarFree, Sound, KeySpaceOk,
           E.Engine.EntriesDated, NamesFresh,
           Cleared, UrlKeys, RangeUrlKeys, BaseKey;
      ghost var st0, base := engine.store.State(), BaseKey(siteId, path, rawQuery);
      deleted := Purging.PurgeUrl(engine.store, siteId, path, rawQuery);
      ghost var st1 := engine.store.State();
      SoundNames(st1);
      ClearedHistory(st0, st1, UrlKeys(base) + RangeUrlKeys(base), deleted);
      forall v | v in urls
        ensures ranges.Inv(v) && engine.Inv(v.base)
      {
        UrlPurgeKeepsGood(v, st0, st1, ranges.fetches, base, deleted);
        UrlPurgeKeepsKeySpace(engine.digest, base, v.base, st0, st1, deleted);
        ClearedDated(v.base, st0, st1, UrlKeys(base) + RangeUrlKeys(base), deleted);
      }
    }

    // The URL is one of a site whose id has no bar.
    ghost predicate OfSomeSite(u: Url) {
      exists site, path, rawQuery :: '|' !in site && u.base == BaseKey(site, path, rawQuery)
    }

    // Purges a site from both caches.
    method PurgeSite(ghost urls: iset<Url>, siteId: string) returns (deleted: nat)
      requires Valid(urls) && Sound(engine.store.State()) && '|' !in siteId && forall v :: v in urls ==> OfSomeSite(v)
      modifies engine.store
      ensures Valid(urls) && Sound(engine.store.State())
      ensures Cleared(old(engine.store.State()), engine.store.State(), SiteKeys(siteId), deleted)
    {
      hide Good, Separate, EngineHas, E.Engine.LogHolds, RC.RangeCache.LogHolds, BarFree, Sound, KeySpaceOk,
           E.Engine.EntriesDated, NamesFresh,
           Cleared, SiteKeys, BaseKey;
      ghost var st0 := engine.store.State();
      deleted := Purging.PurgeSite(engine.store, siteId);
      ghost var st1 := engine.store.State();
      SoundNames(st1);
      ClearedHistory(st0, st1, SiteKeys(siteId), deleted);
      forall v | v in urls
        ensures ranges.Inv(v) && engine.Inv(v.base)
      {
        var site, path, rawQuery :| '|' !in site && v.base == BaseKey(site, path, rawQuery);
        SitePurgeKeepsGood(v, st0, st1, ranges.fetches, siteId, site, path, rawQuery, deleted);
        SitePurgeKeepsKeySpace(engine.digest, st0, st1, siteId, site, path, rawQuery, deleted);
        ClearedDated(v.base, st0, st1, SiteKeys(siteId), deleted);
      }
    }

    lemma SoundNames(st: StoreState)
      requires Sound(st)
      ensures NamesFresh(st)
    {
    }

    lemma ClearedHistory(st: StoreState, st': StoreState, keys: iset<string>, n: int)
      requires Cleared(st, st', keys, n)
      ensures st'.history == st.history
    {
    }

    lemma ClearedDated(base: string, st: StoreState, st': StoreState, keys: iset<string>, n: int)
      requires Cleared(st, st', keys, n) && engine.EntriesDated(base, st, engine.ledger)
      ensures engine.EntriesDated(base, st', engine.ledger)
    {
      hide IsObjectKey;
    }
  }

  function OutcomeOf(r: Routed): RC.RangeOutcome {
    match r
    case RangeSent(result, _, _) => RC.Served(result)
    case RangeFailed => RC.UpstreamError
    case RangeCrashed => RC.Crashed
    case Regular(_) => RC.NotServed
  }

  function WrittenOf(r: Routed): seq<Byte> {
    if r.RangeSent? then r.written else []
  }
}
