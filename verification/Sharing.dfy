/** The two caches share one store: what the operations of one, and purges, leave of what
    the other relies on. */
module Sharing {
  import opened Text
  import opened Headers
  import opened CacheKeys
  import opened Freshness
  import opened BlobStore
  import opened RangeModel
  import opened RangeCaching
  import opened Purging
  import opened KeySpace
  import RenewalBodies
  import E = EngineModel

  // The range cache's records of a URL.
  predicate IsRangeRecord(base: string, key: string) {
    key == RangeVaryKey(base) || OwnsObject(base, key) || OwnsChunk(base, key)
  }

  // They are as they were, unless they lapsed.
  ghost predicate LeavesRange(base: string, st: StoreState, st': StoreState) {
    Grows(st.history, st'.history) && (st.expired ==> st'.expired) &&
    (forall k :: k in st'.records && IsRangeRecord(base, k) ==> k in st.records && st'.records[k] == st.records[k]) &&
    (!st'.expired ==> forall k :: k in st.records && IsRangeRecord(base, k) ==> k in st'.records)
  }

  ghost predicate EntriesOk(u: Url, st: StoreState) {
    forall k :: k in st.records && IsObjectKey(u.base, k) && st.records[k].EntryRecord? ==>
      EntryOk(u, st.history, st.records[k].entry)
  }

  // The range cache's invariant is about its own records, and about the engine's entries.
  lemma LeavesGood(u: Url, st: StoreState, st': StoreState, fetches: Fetches, fetches': Fetches)
    requires Good(u, st, fetches) && LeavesRange(u.base, st, st') && Sound(st') && EntriesOk(u, st') &&
             Learns(fetches, fetches')
    ensures Good(u, st', fetches')
  {
    hide Sound, LeavesRange, EntriesOk, VersionsHold, RecordOk, IsRangeRecord;
    forall k | k in st'.records
      ensures RecordOk(u, st'.history, fetches', k, st'.records[k])
    {
      RecordLeft(u, st, st', fetches, fetches', k);
    }
    LeavesFacts(u.base, st, st');
    if !st'.expired { VersionsLeft(u, st, st', fetches, fetches'); }
  }

  lemma LeavesFacts(base: string, st: StoreState, st': StoreState)
    requires LeavesRange(base, st, st')
    ensures Grows(st.history, st'.history) && (!st'.expired ==> !st.expired)
  {
  }

  lemma RecordLeft(u: Url, st: StoreState, st': StoreState, fetches: Fetches, fetches': Fetches, key: string)
    requires BytesHold(u, st, fetches) && LeavesRange(u.base, st, st') && EntriesOk(u, st') && Learns(fetches, fetches')
    requires key in st'.records
    ensures RecordOk(u, st'.history, fetches', key, st'.records[key])
  {
    hide OwnsObject, OwnsChunk, IsObjectKey, EntryOk;
    if IsRangeRecord(u.base, key) {
      RecordOkGrows(u, st.history, fetches, st'.history, fetches', key, st.records[key]);
    }
  }

  lemma VersionsLeft(u: Url, st: StoreState, st': StoreState, fetches: Fetches, fetches': Fetches)
    requires BytesHold(u, st, fetches) && VersionsHold(u, st, fetches) && LeavesRange(u.base, st, st') && !st'.expired
    requires Learns(fetches, fetches')
    ensures VersionsHold(u, st', fetches')
  {
    hide OwnsObject, OwnsChunk, IsObjectKey, EntryOk, RangeVaryKey, RangeObjectKey;
    forall k | k in st'.records && OwnsChunk(u.base, k) && st'.records[k].ChunkRecord?
      ensures VersionOk(u, st', fetches', st'.records[k].chunk)
    {
      assert IsRangeRecord(u.base, k) && RecordOk(u, st.history, fetches, k, st.records[k]);
      var chunk := st.records[k].chunk;
      OwnedKeys(u.base, chunk.objectKey, 0);
      assert VersionOk(u, st, fetches, chunk);
      assert IsRangeRecord(u.base, RangeObjectKey(chunk.objectKey));
    }
    assert IsRangeRecord(u.base, RangeVaryKey(u.base));
  }

  // Nothing is left of the URL's range records.
  lemma GoneGood(u: Url, st: StoreState, st': StoreState, fetches: Fetches)
    requires Good(u, st, fetches) && Sound(st') && EntriesOk(u, st') && forall k :: k in st'.records ==>
               !IsRangeRecord(u.base, k)
    ensures Good(u, st', fetches)
  {
    hide Sound, EntryOk, OwnsObject, OwnsChunk, IsObjectKey;
    assert RangeVaryKey(u.base) !in st'.records;
  }

  // Operations of the engine, on whatever URL, leave range records alone.
  lemma EngineLeavesRange(base: string, other: string, st: StoreState, st': StoreState)
    requires StaysWithin(base, st, st')
    ensures LeavesRange(other, st, st')
  {
    hide IsRangeRecord, EngineOwned;
    forall k | IsRangeRecord(other, k)
      ensures !EngineOwned(base, k)
    {
      RangeRecordKinds(base, other, k);
    }
  }

  lemma RangeRecordKinds(base: string, other: string, key: string)
    requires IsRangeRecord(other, key)
    ensures !EngineOwned(base, key) && !HasPrefix(key, "resp|") && !HasPrefix(key, "vary|")
  {
    OtherKinds(other, key);
    OneKind(key);
    Kinds(base);
    assert HasPrefix(RangeVaryKey(other), "rvary|");
  }

  // Neither base key starts with the other.
  ghost predicate Separate(base: string, other: string) {
    !HasPrefix(base, other) && !HasPrefix(other, base)
  }

  lemma SeparateIsApart(base: string, other: string)
    requires Separate(base, other)
    ensures Apart(base, other)
  {
    if HasPrefix(other, base + "|vary") { PrefixTransitive(base, base + "|vary", other); }
    if HasPrefix(base, other + "|vary") { PrefixTransitive(other, other + "|vary", base); }
  }

  // Where two separate keys differ.
  lemma DifferAt(base: string, other: string) returns (i: nat)
    requires Separate(base, other)
    ensures i < |base| && i < |other| && base[i] != other[i] && base[..i] == other[..i]
  {
    i := 0;
    while i < |base| && i < |other| && base[i] == other[i]
      invariant i <= |base| && i <= |other| && base[..i] == other[..i]
    {
      i := i + 1;
    }
  }

  lemma SeparatePrefixes(lead: string, base: string, other: string, rest: string, rest': string, key: string)
    requires Separate(base, other) && HasPrefix(key, lead + base + rest)
    ensures !HasPrefix(key, lead + other + rest')
  {
    var i := DifferAt(base, other);
    var p, q, n := lead + base + rest, lead + other + rest', |lead| + i;
    assert p[n] == base[i] && q[n] == other[i];
  }

  // A range record of one of two separate URLs is out of the range cache's reach when it
  // works on the other.
  lemma SeparateOwned(base: string, other: string, key: string)
    requires Separate(base, other) && IsRangeRecord(other, key)
    ensures !RangeOwned(base, key)
  {
    OtherKinds(other, key);
    OneKind(key);
    assert HasPrefix(RangeVaryKey(other), "rvary|") && HasPrefix(RangeVaryKey(base), "rvary|");
    if key == RangeVaryKey(other) {
      assert RangeVaryKey(other)[6..] == other && RangeVaryKey(base)[6..] == base;
      OwnedKindOf(base, key);
    } else if OwnsObject(other, key) {
      ObjectLead(other, key);
      OwnedKindOf(base, key);
      assert RangeObjectKey(ResponseKey(base)) == "rmeta|resp|" + base + "";
      SeparatePrefixes("rmeta|resp|", other, base, "", "", key);
    } else {
      OwnedKindOf(base, key);
      assert RangeChunkPrefix(ResponseKey(base)) == "rchunk|resp|" + base + "|" &&
             RangeChunkPrefix(ResponseKey(other)) == "rchunk|resp|" + other + "|";
      SeparatePrefixes("rchunk|resp|", other, base, "|", "|", key);
    }
  }

  // Which of the three kinds an owned key is.
  lemma OwnedKindOf(base: string, key: string)
    ensures RangeOwned(base, key) && HasPrefix(key, "rvary|") ==> key == RangeVaryKey(base)
    ensures RangeOwned(base, key) && HasPrefix(key, "rmeta|") ==> HasPrefix(key, RangeObjectKey(ResponseKey(base)))
    ensures RangeOwned(base, key) && HasPrefix(key, "rchunk|") ==> OwnsChunk(base, key)
  {
    OneKind(key);
    OtherKinds(base, key);
    assert HasPrefix(RangeVaryKey(base), "rvary|");
    if HasPrefix(key, RangeObjectKey(ResponseKey(base))) {
      PrefixTransitive("rmeta|", RangeObjectKey(ResponseKey(base)), key);
    }
  }

  lemma ObjectLead(base: string, key: string)
    requires OwnsObject(base, key)
    ensures HasPrefix(key, "rmeta|resp|" + base + "")
  {
    var p, q := "rmeta|resp|" + base + "", "rmeta|" + VariantPrefix(base);
    assert RangeObjectKey(ResponseKey(base)) == p;
    if key != p {
      assert q[..|p|] == p;
      PrefixTransitive(p, q, key);
    }
  }

  // Operations of the range cache on one URL leave those of a separate URL alone.
  lemma RangeLeavesRange(base: string, other: string, st: StoreState, st': StoreState)
    requires Evolves(base, st, st') && Separate(base, other)
    ensures LeavesRange(other, st, st')
  {
    hide IsRangeRecord, RangeOwned;
    forall k | IsRangeRecord(other, k)
      ensures !RangeOwned(base, k)
    {
      SeparateOwned(base, other, k);
    }
  }

  // They leave every URL's key space and entries alone.
  lemma RangeLeavesEngine(base: string, other: string, st: StoreState, st': StoreState)
    requires Evolves(base, st, st')
    ensures KeepsAt(other, st, st')
  {
    hide IsObjectKey, RangeOwned, VaryKey;
    Kinds(other);
    OtherKinds(base, VaryKey(other));
    forall k | IsObjectKey(other, k)
      ensures !RangeOwned(base, k)
    {
      OtherKinds(base, k);
    }
  }

  lemma EntriesStayOk(u: Url, st: StoreState, st': StoreState)
    requires EntriesOk(u, st) && KeepsAt(u.base, st, st') && Grows(st.history, st'.history)
    ensures EntriesOk(u, st')
  {
    hide IsObjectKey;
  }

  lemma GoodEntries(u: Url, st: StoreState, fetches: Fetches)
    requires Good(u, st, fetches)
    ensures EntriesOk(u, st) && Sound(st)
  {
    hide Sound, IsObjectKey, OwnsChunk, OwnsObject, EntryOk;
    forall k | k in st.records && IsObjectKey(u.base, k) && st.records[k].EntryRecord?
      ensures EntryOk(u, st.history, st.records[k].entry)
    {
      assert RecordOk(u, st.history, fetches, k, st.records[k]);
    }
  }

  // Storing a response for one URL keeps what the range cache knows of another.
  lemma StoreKeepsOthersGood(w: World, u: Url, st: StoreState, fetches: Fetches, base: string, entry: Entry,
                             names: seq<string>)
    requires Good(u, st, fetches) && Apart(base, u.base) && IsObjectKey(base, entry.key) &&
             (names == [] ==> entry.key == ResponseKey(base))
    requires Sound(StoreResponseState(w, st, base, entry, names))
    ensures Good(u, StoreResponseState(w, st, base, entry, names), fetches)
  {
    hide Good, Sound, StoreResponseState, LeavesRange, KeepsAt, EntriesOk, StaysWithin, IsObjectKey;
    var st' := StoreResponseState(w, st, base, entry, names);
    StoreWithin(w, st, base, entry, names);
    WithinGrows(base, st, st');
    EngineLeavesRange(base, u.base, st, st');
    WithinKeepsOthers(base, u.base, st, st');
    GoodEntries(u, st, fetches);
    EntriesStayOk(u, st, st');
    LeavesGood(u, st, st', fetches, fetches);
  }

  lemma WithinGrows(base: string, st: StoreState, st': StoreState)
    requires StaysWithin(base, st, st')
    ensures Grows(st.history, st'.history)
  {
  }

  // Storing a response for the URL itself keeps it exactly if the response, when it names
  // a length, carries the whole body: a cacheable reply of another status with a body of
  // its own does not.
  lemma StoreKeepsGoodIff(w: World, digest: string -> string, u: Url, st: StoreState, fetches: Fetches, entry: Entry,
                          names: seq<string>, h: Header)
    requires Good(u, st, fetches) && entry.key == StorageKey(digest, u.base, names, h)
    requires Sound(StoreResponseState(w, st, u.base, entry, names)) &&
             !StoreResponseState(w, st, u.base, entry, names).expired
    ensures Good(u, StoreResponseState(w, st, u.base, entry, names), fetches) <==> EntryOk(u, st.history, entry)
  {
    hide Good, Sound, StoreResponseState, LeavesRange, EntriesOk, StaysWithin, IsObjectKey, EntryOk, StorageKey;
    var st' := StoreResponseState(w, st, u.base, entry, names);
    KeysAreObjectKeys(digest, u.base, names, h, None);
    PlainStorage(digest, u.base, names, h);
    StoreWithin(w, st, u.base, entry, names);
    WithinGrows(u.base, st, st');
    EngineLeavesRange(u.base, u.base, st, st');
    GoodEntries(u, st, fetches);
    E.StoreShape(w, st, u.base, entry, names);
    StoredThere(w, st, u.base, entry, names);
    if EntryOk(u, st.history, entry) {
      EntriesWith(u, st, st', entry);
      LeavesGood(u, st, st', fetches, fetches);
    }
    if Good(u, st', fetches) {
      GoodEntries(u, st', fetches);
      EntryAmong(u, st', entry.key);
    }
  }

  lemma StoredThere(w: World, st: StoreState, base: string, entry: Entry, names: seq<string>)
    requires IsObjectKey(base, entry.key) && (names == [] ==> entry.key == ResponseKey(base))
    ensures var st' := StoreResponseState(w, st, base, entry, names);
            st'.history == st.history && (!st'.expired ==> EntryAt(st', entry.key) == Some(entry))
  {
    hide PutEntryState, DeleteState, DeletePrefixState;
    E.StoreShape(w, st, base, entry, names);
    var before := RenewalBodies.BeforePut(w, st, base, names);
    if !StoreResponseState(w, st, base, entry, names).expired { RenewalBodies.PutEntryShape(w, before, entry); }
  }

  lemma EntriesWith(u: Url, st: StoreState, st': StoreState, entry: Entry)
    requires EntriesOk(u, st) && st'.history == st.history && EntryOk(u, st.history, entry)
    requires forall k :: k in st'.records && IsObjectKey(u.base, k) ==>
               (k in st.records && st'.records[k] == st.records[k]) || st'.records[k] == EntryRecord(entry)
    ensures EntriesOk(u, st')
  {
    hide IsObjectKey, EntryOk;
  }

  lemma EntryAmong(u: Url, st: StoreState, key: string)
    requires EntriesOk(u, st) && IsObjectKey(u.base, key) && EntryAt(st, key).Some?
    ensures EntryOk(u, st.history, EntryAt(st, key).value)
  {
  }

  // A purge that takes none of a URL's range records, or all of them, keeps what the
  // range cache knows of it.
  lemma PurgeKeepsGood(u: Url, st: StoreState, st': StoreState, fetches: Fetches, keys: iset<string>, n: int)
    requires Good(u, st, fetches) && Sound(st') && Cleared(st, st', keys, n)
    requires (forall k :: IsRangeRecord(u.base, k) ==> k !in keys) ||
             (forall k :: IsRangeRecord(u.base, k) ==> k in keys)
    ensures Good(u, st', fetches)
  {
    hide Good, Sound, IsRangeRecord, LeavesRange, EntryOk, IsObjectKey;
    GoodEntries(u, st, fetches);
    assert EntriesOk(u, st');
    if forall k :: IsRangeRecord(u.base, k) ==> k !in keys {
      ClearedLeaves(u.base, st, st', keys, n);
      LeavesGood(u, st, st', fetches, fetches);
    } else {
      GoneGood(u, st, st', fetches);
    }
  }

  lemma ClearedLeaves(base: string, st: StoreState, st': StoreState, keys: iset<string>, n: int)
    requires Cleared(st, st', keys, n) && forall k :: IsRangeRecord(base, k) ==> k !in keys
    ensures LeavesRange(base, st, st')
  {
    hide IsRangeRecord;
  }

  // What a purge by URL takes of a URL's range records: all of its own, and none of those
  // of a separate URL.
  lemma UrlPurgeCovers(base: string, other: string, key: string)
    requires IsRangeRecord(other, key)
    ensures base == other ==> key in UrlKeys(base) + RangeUrlKeys(base)
    ensures Separate(base, other) ==> key !in UrlKeys(base) + RangeUrlKeys(base)
  {
    hide HasPrefix, VariantPrefix, RangeObjectKey, RangeChunkPrefix, RangeVaryKey;
    if base == other { OwnRecords(base, key); }
    if Separate(base, other) {
      SeparateOwned(base, other, key);
      RangeRecordKinds(base, other, key);
      PurgedIsOwned(base, key);
    }
  }

  lemma OwnRecords(base: string, key: string)
    requires IsRangeRecord(base, key)
    ensures key in RangeUrlKeys(base)
  {
    if OwnsObject(base, key) {
      ObjectLead(base, key);
      assert RangeObjectKey(ResponseKey(base)) == "rmeta|resp|" + base + "";
    }
  }

  lemma PurgedIsOwned(base: string, key: string)
    ensures key in RangeUrlKeys(base) ==> RangeOwned(base, key)
    ensures key in UrlKeys(base) ==> EngineOwned(base, key)
  {
    OwnedPrefixes(base, key);
  }

  // A purge by URL keeps what the range cache knows of the URL, and of separate ones.
  lemma UrlPurgeKeepsGood(u: Url, st: StoreState, st': StoreState, fetches: Fetches, base: string, n: int)
    requires Good(u, st, fetches) && Sound(st') && Cleared(st, st', UrlKeys(base) + RangeUrlKeys(base), n)
    requires base == u.base || Separate(base, u.base)
    ensures Good(u, st', fetches)
  {
    hide Good, Sound, IsRangeRecord, Cleared, Separate, UrlKeys, RangeUrlKeys;
    var keys := UrlKeys(base) + RangeUrlKeys(base);
    forall k | IsRangeRecord(u.base, k)
      ensures base == u.base ==> k in keys
      ensures base != u.base ==> k !in keys
    {
      UrlPurgeCovers(base, u.base, k);
    }
    PurgeKeepsGood(u, st, st', fetches, keys, n);
  }

  ghost predicate ChunkLeft(base: string, st: StoreState) {
    exists k :: k in st.records && OwnsChunk(base, k) && st.records[k].ChunkRecord?
  }

  // A purge by URL takes the metadata of longer URLs too, but need not take their chunks:
  // it keeps what the range cache knows of such a URL exactly if no chunk of it is left.
  lemma LongerUrlPurgeIff(base: string, u: Url, st: StoreState, st': StoreState, fetches: Fetches, n: int)
    requires Good(u, st, fetches) && Sound(st') && !st'.expired && HasPrefix(u.base, base)
    requires Cleared(st, st', UrlKeys(base) + RangeUrlKeys(base), n)
    ensures Good(u, st', fetches) <==> !ChunkLeft(u.base, st')
  {
    hide Sound, OwnsChunk, OwnsObject, IsObjectKey, EntryOk, UrlKeys, RangeUrlKeys, RangeObjectKey, RangeVaryKey,
         ObjectOk;
    if Good(u, st', fetches) && ChunkLeft(u.base, st') {
      var k :| k in st'.records && OwnsChunk(u.base, k) && st'.records[k].ChunkRecord?;
      var chunk := st'.records[k].chunk;
      assert RecordOk(u, st'.history, fetches, k, st'.records[k]) && VersionOk(u, st', fetches, chunk);
      LongerObjects(base, u.base, chunk.objectKey);
      RangePurgeReaches(base, chunk.objectKey);
      assert false;
    }
    assert BytesHold(u, st', fetches);
  }

  lemma LongerObjects(base: string, other: string, key: string)
    requires HasPrefix(other, base) && IsObjectKey(other, key)
    ensures HasPrefix(key, ResponseKey(base))
  {
    var p, q := ResponseKey(base), ResponseKey(other);
    assert q[..|p|] == p;
    if key != q {
      assert VariantPrefix(other)[..|p|] == p;
      PrefixTransitive(p, VariantPrefix(other), key);
    }
  }

  // A purge by site keeps what the range cache knows of any URL: if site ids have no bar
  // it takes all range records of the site's own URLs and none of the others.
  lemma SitePurgeKeepsGood(u: Url, st: StoreState, st': StoreState, fetches: Fetches, site: string, site': string,
                           path: string,
                           rawQuery: string, n: int)
    requires Good(u, st, fetches) && Sound(st') && Cleared(st, st', SiteKeys(site), n)
    requires '|' !in site && '|' !in site' && u.base == BaseKey(site', path, rawQuery)
    ensures Good(u, st', fetches)
  {
    hide Good, Sound, IsRangeRecord, Cleared, SiteKeys, BaseKey;
    forall k | IsRangeRecord(u.base, k)
      ensures k in SiteKeys(site) <==> site == site'
    {
      SiteRecords(site, site', path, rawQuery, k);
    }
    PurgeKeepsGood(u, st, st', fetches, SiteKeys(site), n);
  }

  // How a range record's key begins.
  lemma RangeRecordLead(base: string, key: string) returns (lead: string, more: string)
    requires IsRangeRecord(base, key)
    ensures lead in {"rvary|", "rmeta|resp|", "rchunk|resp|"} && key == lead + base + more
  {
    if key == RangeVaryKey(base) {
      lead, more := "rvary|", "";
    } else if OwnsObject(base, key) {
      ObjectLead(base, key);
      lead := "rmeta|resp|";
      more := key[|lead + base|..];
    } else {
      var prefix := RangeChunkPrefix(ResponseKey(base));
      assert prefix == "rchunk|resp|" + base + "|";
      lead := "rchunk|resp|";
      more := key[|lead + base|..];
    }
  }

  lemma SiteRecords(site: string, site': string, path: string, rawQuery: string, key: string)
    requires '|' !in site && '|' !in site' && IsRangeRecord(BaseKey(site', path, rawQuery), key)
    ensures key in SiteKeys(site) <==> site == site'
  {
    hide SiteKeys, IsRangeRecord;
    var base := BaseKey(site', path, rawQuery);
    var rest := "GET|" + path + (if rawQuery != "" then "?" + rawQuery else "");
    assert base == site' + "|" + rest;
    var lead, more := RangeRecordLead(base, key);
    assert key == lead + site' + "|" + (rest + more);
    KeyOfSite(lead, site, site', rest + more, key);
  }

  // A purge that takes none of a URL's engine records, or all of them, keeps its key space.
  lemma PurgeKeepsKeySpace(digest: string -> string, base: string, st: StoreState, st': StoreState, keys: iset<string>,
                           n: int)
    requires KeySpaceOk(digest, base, st) && Cleared(st, st', keys, n)
    requires (forall k :: EngineOwned(base, k) ==> k !in keys) || (forall k :: EngineOwned(base, k) ==> k in keys)
    ensures KeySpaceOk(digest, base, st')
  {
    hide IsObjectKey, VaryKey, IsVariant;
    Kinds(base);
    assert EngineOwned(base, VaryKey(base));
    if forall k :: EngineOwned(base, k) ==> k !in keys {
      assert KeepsAt(base, st, st');
      LossKeeps(digest, base, st, st');
    } else {
      forall k | IsObjectKey(base, k)
        ensures k !in st'.records
      {
        assert EngineOwned(base, k);
      }
      VariantsAreObjects(base);
    }
  }

  lemma VariantsAreObjects(base: string)
    ensures forall k :: IsVariantKey(base, k) ==> IsObjectKey(base, k)
  {
  }

  lemma UrlPurgeCoversEngine(base: string, other: string, key: string)
    requires EngineOwned(other, key)
    ensures base == other ==> key in UrlKeys(base) + RangeUrlKeys(base)
    ensures Separate(base, other) ==> key !in UrlKeys(base) + RangeUrlKeys(base)
  {
    hide VariantPrefix, RangeObjectKey, RangeChunkPrefix, RangeVaryKey, RangeOwned;
    Kinds(other);
    if Separate(base, other) {
      SeparateIsApart(base, other);
      OtherKinds(base, key);
      PurgedIsOwned(base, key);
      OtherNames(base, other);
      if key != VaryKey(other) { ApartBoth(base, other, key); }
      Kinds(base);
    }
  }

  lemma UrlPurgeKeepsKeySpace(digest: string -> string, base: string, other: string, st: StoreState, st': StoreState,
                              n: int)
    requires KeySpaceOk(digest, other, st) && Cleared(st, st', UrlKeys(base) + RangeUrlKeys(base), n)
    requires base == other || Separate(base, other)
    ensures KeySpaceOk(digest, other, st')
  {
    hide KeySpaceOk, EngineOwned, Cleared, Separate, UrlKeys, RangeUrlKeys;
    var keys := UrlKeys(base) + RangeUrlKeys(base);
    forall k | EngineOwned(other, k)
      ensures base == other ==> k in keys
      ensures base != other ==> k !in keys
    {
      UrlPurgeCoversEngine(base, other, k);
    }
    PurgeKeepsKeySpace(digest, other, st, st', keys, n);
  }

  lemma SiteEntries(site: string, site': string, path: string, rawQuery: string, key: string)
    requires '|' !in site && '|' !in site' && EngineOwned(BaseKey(site', path, rawQuery), key)
    ensures key in SiteKeys(site) <==> site == site'
  {
    hide SiteKeys;
    var base := BaseKey(site', path, rawQuery);
    var rest := "GET|" + path + (if rawQuery != "" then "?" + rawQuery else "");
    assert base == site' + "|" + rest;
    if key == VaryKey(base) {
      KeyOfSite("vary|", site, site', rest, key);
    } else {
      var more := Extension(base, key);
      KeyOfSite("resp|", site, site', rest + more, key);
    }
  }

  lemma SitePurgeKeepsKeySpace(digest: string -> string, st: StoreState, st': StoreState, site: string, site': string,
                               path: string,
                               rawQuery: string, n: int)
    requires KeySpaceOk(digest, BaseKey(site', path, rawQuery), st) && Cleared(st, st', SiteKeys(site), n)
    requires '|' !in site && '|' !in site'
    ensures KeySpaceOk(digest, BaseKey(site', path, rawQuery), st')
  {
    hide KeySpaceOk, EngineOwned, Cleared, SiteKeys, BaseKey;
    var base := BaseKey(site', path, rawQuery);
    forall k | EngineOwned(base, k)
      ensures k in SiteKeys(site) <==> site == site'
    {
      SiteEntries(site, site', path, rawQuery, k);
    }
    PurgeKeepsKeySpace(digest, base, st, st', SiteKeys(site), n);
  }
}
