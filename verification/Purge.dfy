/** Purging: by URL and by site, in both caches. */
module Purging {
  import opened Text
  import opened Headers
  import opened CacheKeys
  import opened BlobStore
  import opened RangeModel

  // The records at the given keys are gone, all others are untouched, and n is the
  // number of records that left; with expiry, more than n may have left.
  ghost predicate Cleared(st: StoreState, st': StoreState, keys: iset<string>, n: int) {
    (forall k :: k in st'.records ==> k in st.records && st'.records[k] == st.records[k] && k !in keys) &&
    (forall k :: k in st.records && k !in keys && IsNamesKey(k) ==> k in st'.records) &&
    n <= |st.records| - |st'.records| && (st.expired ==> st'.expired) && st'.history == st.history &&
    (!st'.expired ==> n == |st.records| - |st'.records| && forall k :: k in st.records && k !in keys ==>
       k in st'.records)
  }

  lemma ClearedTransitive(a: StoreState, b: StoreState, c: StoreState, keys: iset<string>, more: iset<string>, n: int,
                          m: int)
    requires Cleared(a, b, keys, n) && Cleared(b, c, more, m)
    ensures Cleared(a, c, keys + more, n + m)
  {
  }

  lemma MapMinusCount<V>(m: map<string, V>, keys: set<string>)
    ensures |m - keys| == |m| - |m.Keys * keys|
  {
    assert (m - keys).Keys == m.Keys - (m.Keys * keys);
    assert |m - keys| == |(m - keys).Keys| && |m| == |m.Keys|;
  }

  lemma LapseCleared(w: World, st: StoreState)
    ensures Cleared(st, Lapse(w, st), iset{}, 0)
  {
    MapMinusCount(st.records, Lapsing(w, st.ops));
  }

  lemma DropCleared(st: StoreState, st': StoreState, keys: set<string>, covered: iset<string>)
    requires st'.records == st.records - keys && st'.expired == st.expired && st'.history == st.history
    requires forall k :: k in keys ==> k in st.records && k in covered
    requires forall k :: k in st.records && k in covered ==> k in keys
    ensures Cleared(st, st', covered, |keys|)
  {
    MapMinusCount(st.records, keys);
    assert st.records.Keys * keys == keys;
  }

  lemma ClearedAfterLapse(w: World, st: StoreState, st': StoreState, keys: iset<string>, n: int)
    requires Cleared(Lapse(w, st), st', keys, n)
    ensures Cleared(st, st', keys, n)
  {
    hide Lapse;
    LapseCleared(w, st);
  }

  lemma DeletePrefixCleared(w: World, st: StoreState, prefix: string)
    ensures Cleared(st, DeletePrefixState(w, st, prefix), PrefixKeys(prefix), |Matching(Lapse(w, st), prefix)|)
  {
    hide Cleared, Lapse;
    DropCleared(Lapse(w, st), DeletePrefixState(w, st, prefix), Matching(Lapse(w, st), prefix), PrefixKeys(prefix));
    ClearedAfterLapse(w, st, DeletePrefixState(w, st, prefix), PrefixKeys(prefix), |Matching(Lapse(w, st), prefix)|);
  }

  // A key counted as found before its deletion has left the store, be it by expiry.
  lemma DeleteFoundCleared(w: World, st: StoreState, key: string)
    requires key in st.records
    ensures Cleared(st, DeleteState(w, st, key), iset{key}, 1)
  {
    hide Cleared, Lapse, DeleteState;
    DeleteShape(w, st, key);
    var st' := DeleteState(w, st, key);
    if HasPrefix(key, "resp|") || HasPrefix(key, "rchunk|") {
      if key in Lapse(w, st).records {
        DropCleared(Lapse(w, st), st', {key}, iset{key});
        ClearedAfterLapse(w, st, st', iset{key}, 1);
      } else {
        LostByExpiry(w, st, st', key);
      }
    } else {
      DropCleared(st, st', {key}, iset{key});
    }
  }

  lemma DeleteShape(w: World, st: StoreState, key: string)
    ensures var st', before := DeleteState(w, st, key), if HasPrefix(key, "resp|") ||
            HasPrefix(key, "rchunk|") then Lapse(w, st) else st;
            st'.records == before.records - {key} && st'.expired == before.expired && st'.history == before.history
  {
  }

  lemma LostByExpiry(w: World, st: StoreState, st': StoreState, key: string)
    requires key in st.records && key !in Lapse(w, st).records
    requires st'.records == Lapse(w, st).records - {key} && st'.expired == Lapse(w, st).expired &&
             st'.history == Lapse(w, st).history
    ensures Cleared(st, st', iset{key}, 1)
  {
    assert st'.records == Lapse(w, st).records;
    MapMinusCount(st.records, Lapsing(w, st.ops));
    assert key in st.records.Keys * Lapsing(w, st.ops);
  }

  ghost function PrefixKeys(prefix: string): iset<string> {
    iset k | HasPrefix(k, prefix)
  }

  ghost function EitherPrefixKeys(first: string, second: string): iset<string> {
    PrefixKeys(first) + PrefixKeys(second)
  }

  ghost function UrlKeys(base: string): iset<string> {
    iset{ResponseKey(base), VaryKey(base)} + PrefixKeys(VariantPrefix(base))
  }

  ghost function RangeUrlKeys(base: string): iset<string> {
    iset{RangeVaryKey(base)} + ChunkUrlKeys(base)
  }

  method ClearPrefix(store: BadgerStore, prefix: string) returns (deleted: nat)
    requires Sound(store.State())
    modifies store
    ensures Sound(store.State()) && Cleared(old(store.State()), store.State(), PrefixKeys(prefix), deleted)
  {
    DeletePrefixCleared(store.world, store.State(), prefix);
    DeletePrefixSound(store.world, store.State(), prefix);
    deleted := store.DeletePrefix(prefix);
  }

  method ClearPrefixes(store: BadgerStore, first: string, second: string) returns (deleted: nat)
    requires Sound(store.State())
    modifies store
    ensures Sound(store.State()) && Cleared(old(store.State()), store.State(), EitherPrefixKeys(first, second), deleted)
  {
    hide Sound, Cleared, PrefixKeys;
    ghost var st0 := store.State();
    var a := ClearPrefix(store, first);
    ghost var st1 := store.State();
    var b := ClearPrefix(store, second);
    ClearedTransitive(st0, st1, store.State(), PrefixKeys(first), PrefixKeys(second), a, b);
    deleted := a + b;
  }

  lemma NothingFound(w: World, st: StoreState, key: string)
    requires key !in Lapse(w, st).records
    ensures Cleared(st, Lapse(w, st), iset{key}, 0)
  {
    LapseCleared(w, st);
  }

  // Deletes the record at a key if a lookup finds one.
  method ClearEntry(store: BadgerStore, key: string) returns (deleted: nat)
    requires Sound(store.State()) && HasPrefix(key, "resp|")
    modifies store
    ensures Sound(store.State()) && Cleared(old(store.State()), store.State(), iset{key}, deleted)
  {
    hide Sound, Lapse, Cleared;
    ghost var st0 := store.State();
    LapseSound(store.world, st0);
    var entry := store.GetEntry(key);
    ghost var st1 := store.State();
    deleted := 0;
    FoundWhenThere(st1, key);
    if entry.Some? {
      DeleteFoundCleared(store.world, st1, key);
      DeleteSound(store.world, st1, key);
      store.Delete(key);
      ClearedAfterLapse(store.world, st0, store.State(), iset{key}, 1);
      deleted := 1;
    } else {
      NothingFound(store.world, st0, key);
    }
  }

  lemma FoundWhenThere(st: StoreState, key: string)
    requires Sound(st)
    ensures HasPrefix(key, "resp|") ==> (EntryAt(st, key).Some? <==> key in st.records)
    ensures HasPrefix(key, "vary|") || HasPrefix(key, "rvary|") ==> (VaryAt(st, key).Some? <==> key in st.records)
  {
    assert key in st.records ==> KindMatches(key, st.records[key]);
  }

  method ClearVary(store: BadgerStore, key: string) returns (deleted: nat)
    requires Sound(store.State()) && (HasPrefix(key, "vary|") || HasPrefix(key, "rvary|"))
    modifies store
    ensures Sound(store.State()) && Cleared(old(store.State()), store.State(), iset{key}, deleted)
  {
    hide Sound, Lapse, Cleared;
    ghost var st0 := store.State();
    LapseSound(store.world, st0);
    var names := store.GetVary(key);
    ghost var st1 := store.State();
    deleted := 0;
    FoundWhenThere(st1, key);
    if names.Some? {
      DeleteFoundCleared(store.world, st1, key);
      DeleteSound(store.world, st1, key);
      store.Delete(key);
      ClearedAfterLapse(store.world, st0, store.State(), iset{key}, 1);
      deleted := 1;
    } else {
      NothingFound(store.world, st0, key);
    }
  }

  // The engine's share of a purge by URL.
  method PurgeEngineUrl(store: BadgerStore, base: string) returns (deleted: nat)
    requires Sound(store.State())
    modifies store
    ensures Sound(store.State()) && Cleared(old(store.State()), store.State(), UrlKeys(base), deleted)
  {
    hide Sound, Cleared, VariantPrefix;
    ghost var st0 := store.State();
    assert HasPrefix(ResponseKey(base), "resp|") && HasPrefix(VaryKey(base), "vary|");
    var a := ClearEntry(store, ResponseKey(base));
    ghost var st1 := store.State();
    var b := ClearVary(store, VaryKey(base));
    ghost var st2 := store.State();
    var c := ClearPrefix(store, VariantPrefix(base));
    ghost var keys := iset{ResponseKey(base)} + iset{VaryKey(base)};
    ClearedTransitive(st0, st1, st2, iset{ResponseKey(base)}, iset{VaryKey(base)}, a, b);
    ClearedTransitive(st0, st2, store.State(), keys, PrefixKeys(VariantPrefix(base)), a + b, c);
    assert keys + PrefixKeys(VariantPrefix(base)) == UrlKeys(base);
    deleted := a + b + c;
  }

  // The metadata and the chunks under two pairs of prefixes.
  ghost function ChunkUrlKeys(base: string): iset<string> {
    EitherPrefixKeys(RangeObjectKey(ResponseKey(base)), RangeChunkPrefix(ResponseKey(base)))
    + EitherPrefixKeys("rmeta|" + VariantPrefix(base), "rchunk|" + VariantPrefix(base))
  }

  method PurgeChunks(store: BadgerStore, base: string) returns (deleted: nat)
    requires Sound(store.State())
    modifies store
    ensures Sound(store.State()) && Cleared(old(store.State()), store.State(), ChunkUrlKeys(base), deleted)
  {
    hide Sound, Cleared, VariantPrefix, RangeObjectKey, RangeChunkPrefix, EitherPrefixKeys, ResponseKey;
    ghost var st0 := store.State();
    var plain := ClearPrefixes(store, RangeObjectKey(ResponseKey(base)), RangeChunkPrefix(ResponseKey(base)));
    ghost var st1 := store.State();
    var variants := ClearPrefixes(store, "rmeta|" + VariantPrefix(base), "rchunk|" + VariantPrefix(base));
    ClearedTransitive(st0, st1, store.State(), EitherPrefixKeys(RangeObjectKey(ResponseKey(base)),
                                                                RangeChunkPrefix(ResponseKey(base))),
                      EitherPrefixKeys("rmeta|" + VariantPrefix(base), "rchunk|" + VariantPrefix(base)), plain,
                        variants);
    deleted := plain + variants;
  }

  lemma RangeVaryKind(base: string)
    ensures HasPrefix(RangeVaryKey(base), "rvary|")
  {
  }

  // The range cache's share.
  method PurgeRangeUrl(store: BadgerStore, base: string) returns (deleted: nat)
    requires Sound(store.State())
    modifies store
    ensures Sound(store.State()) && Cleared(old(store.State()), store.State(), RangeUrlKeys(base), deleted)
  {
    hide Sound, Cleared, ChunkUrlKeys, RangeVaryKey;
    RangeVaryKind(base);
    ghost var st0 := store.State();
    var names := ClearVary(store, RangeVaryKey(base));
    ghost var st1 := store.State();
    var chunks := PurgeChunks(store, base);
    ClearedTransitive(st0, st1, store.State(), iset{RangeVaryKey(base)}, ChunkUrlKeys(base), names, chunks);
    deleted := names + chunks;
  }

  // The names recorded for the other URL stay, and so does its plain response, unless its
  // key goes on like a variant of this one's.
  ghost predicate TakesNothingOf(base: string, other: string) {
    var keys := UrlKeys(base) + RangeUrlKeys(base);
    VaryKey(other) !in keys && RangeVaryKey(other) !in keys &&
    (ResponseKey(other) in keys <==> HasPrefix(other, base + "|vary|"))
  }

  lemma OtherKeysStay(base: string, other: string)
    requires base != other
    ensures TakesNothingOf(base, other)
  {
    hide ChunkUrlKeys;
    RangeKinds(base);
    LeadsDiffer(base, other);
    ContinuesIff(base, other);
  }

  lemma LeadsDiffer(base: string, other: string)
    ensures VaryKey(other) == VaryKey(base) ==> other == base
    ensures RangeVaryKey(other) == RangeVaryKey(base) ==> other == base
    ensures ResponseKey(other) == ResponseKey(base) ==> other == base
    ensures !HasPrefix(VaryKey(other), VariantPrefix(base)) && !HasPrefix(RangeVaryKey(other), VariantPrefix(base))
    ensures VaryKey(other)[0] == 'v' && RangeVaryKey(other)[1] == 'v' && ResponseKey(other)[1] == 'e' &&
            ResponseKey(other)[0] == 'r' && ResponseKey(base)[0] == 'r' && VaryKey(base)[0] == 'v' &&
            RangeVaryKey(base)[0] == 'r' && RangeVaryKey(base)[1] == 'v' && ResponseKey(base)[1] == 'e'
  {
    assert ResponseKey(other)[5..] == other && VaryKey(other)[5..] == other && RangeVaryKey(other)[6..] == other;
    assert ResponseKey(base)[5..] == base && VaryKey(base)[5..] == base && RangeVaryKey(base)[6..] == base;
    assert VaryKey(other)[..2] == "va" && RangeVaryKey(other)[..2] == "rv" && VariantPrefix(base)[..2] == "re";
    SharedStart(VaryKey(other), VariantPrefix(base), 2);
    SharedStart(RangeVaryKey(other), VariantPrefix(base), 2);
  }

  lemma SharedStart(key: string, prefix: string, n: nat)
    requires n <= |prefix|
    ensures HasPrefix(key, prefix) ==> n <= |key| && key[..n] == prefix[..n]
  {
    if HasPrefix(key, prefix) { assert key[..n] == key[..|prefix|][..n]; }
  }

  lemma ContinuesIff(base: string, other: string)
    ensures HasPrefix(ResponseKey(other), VariantPrefix(base)) <==> HasPrefix(other, base + "|vary|")
  {
    var plain, prefix, rest := ResponseKey(other), VariantPrefix(base), base + "|vary|";
    assert plain == "resp|" + other && prefix == "resp|" + rest;
    if HasPrefix(plain, prefix) { assert other[..|rest|] == plain[..|prefix|][5..] == rest; }
    if HasPrefix(other, rest) { assert plain[..|prefix|] == "resp|" + other[..|rest|]; }
  }

  lemma RangeKinds(base: string)
    ensures forall k :: k in ChunkUrlKeys(base) ==> k != "" && k[0] == 'r' && |k| > 1 && (k[1] == 'm' || k[1] == 'c')
  {
    var p, q := RangeObjectKey(ResponseKey(base)), RangeChunkPrefix(ResponseKey(base));
    var v, c := "rmeta|" + VariantPrefix(base), "rchunk|" + VariantPrefix(base);
    assert p[..2] == "rm" && q[..2] == "rc" && v[..2] == "rm" && c[..2] == "rc";
    forall k | k in ChunkUrlKeys(base)
      ensures k != "" && k[0] == 'r' && |k| > 1 && (k[1] == 'm' || k[1] == 'c')
    {
      assert HasPrefix(k, p) ==> k[..|p|][..2] == p[..2];
      assert HasPrefix(k, q) ==> k[..|q|][..2] == q[..2];
      assert HasPrefix(k, v) ==> k[..|v|][..2] == v[..2];
      assert HasPrefix(k, c) ==> k[..|c|][..2] == c[..2];
    }
  }

  // Purges a URL from both caches. The count is the number of records that left, and
  // no request for the URL, whatever its fields, finds anything any more.
  method PurgeUrl(store: BadgerStore, siteId: string, path: string, rawQuery: string) returns (deleted: nat)
    requires Sound(store.State())
    modifies store
    ensures Sound(store.State())
    ensures Cleared(old(store.State()), store.State(),
                    UrlKeys(BaseKey(siteId, path, rawQuery)) + RangeUrlKeys(BaseKey(siteId, path, rawQuery)), deleted)
    ensures forall digest: string -> string, h, spec ::
              EntryAt(store.State(), LookupKey(digest, BaseKey(siteId, path, rawQuery), h, spec)) == None &&
              ObjectAt(store.State(), RangeObjectKey(LookupKey(digest, BaseKey(siteId, path, rawQuery), h, spec))) ==
                None
    ensures '|' !in siteId ==>
              forall site', path', rawQuery' ::
                '|' !in site' && !SameUrl(siteId, path, rawQuery, site', path', rawQuery') ==>
                  TakesNothingOf(BaseKey(siteId, path, rawQuery), BaseKey(site', path', rawQuery'))
  {
    hide Sound, LookupKey, VariantPrefix, RangeObjectKey, RangeChunkPrefix, ResponseKey, VaryKey, RangeVaryKey, BaseKey,
         UrlKeys, RangeUrlKeys, SameUrl, TakesNothingOf;
    ghost var st0 := store.State();
    var base := BaseKey(siteId, path, rawQuery);
    var a := PurgeEngineUrl(store, base);
    ghost var st1 := store.State();
    var b := PurgeRangeUrl(store, base);
    ClearedTransitive(st0, st1, store.State(), UrlKeys(base), RangeUrlKeys(base), a, b);
    forall digest: string -> string, h, spec
      ensures EntryAt(store.State(), LookupKey(digest, base, h, spec)) == None &&
              ObjectAt(store.State(), RangeObjectKey(LookupKey(digest, base, h, spec))) == None
    {
      LookupsCovered(digest, base, h, spec);
    }
    forall site', path', rawQuery' | '|' !in siteId && '|' !in site' &&
                                     !SameUrl(siteId, path, rawQuery, site', path', rawQuery')
      ensures TakesNothingOf(base, BaseKey(site', path', rawQuery'))
    {
      SameUrlIff(siteId, path, rawQuery, site', path', rawQuery');
      OtherKeysStay(base, BaseKey(site', path', rawQuery'));
    }
    deleted := a + b;
  }

  lemma LookupsCovered(digest: string -> string, base: string, h: Header, spec: Option<seq<string>>)
    ensures LookupKey(digest, base, h, spec) in UrlKeys(base)
    ensures RangeObjectKey(LookupKey(digest, base, h, spec)) in RangeUrlKeys(base)
  {
    var key := LookupKey(digest, base, h, spec);
    assert forall s: string :: HasPrefix(VariantPrefix(base) + s, VariantPrefix(base));
    assert IsObjectKey(base, key);
    OwnedKeys(base, key, 0);
  }

  // A purge by URL takes the chunk metadata of exactly the storage keys that extend the
  // URL's response key, those of longer URLs included.
  lemma RangePurgeReaches(base: string, key: string)
    ensures RangeObjectKey(key) in RangeUrlKeys(base) <==> HasPrefix(key, ResponseKey(base))
  {
    var k, prefix := RangeObjectKey(key), RangeObjectKey(ResponseKey(base));
    assert k[6..] == key && prefix[6..] == ResponseKey(base);
    assert HasPrefix(k, prefix) <==> HasPrefix(key, ResponseKey(base)) by {
      if HasPrefix(k, prefix) { assert key[..|ResponseKey(base)|] == k[6..|prefix|] == prefix[6..]; }
      if HasPrefix(key, ResponseKey(base)) { assert k[..|prefix|] == prefix; }
    }
    assert k[1] == 'm' && RangeVaryKey(base)[1] == 'v';
    OwnedPrefixes(base, k);
    OtherKinds(base, k);
    OneKind(k);
    assert HasPrefix(k, "rmeta|");
    if HasPrefix(k, "rchunk|" + VariantPrefix(base)) {
      PrefixTransitive("rchunk|", "rchunk|" + VariantPrefix(base), k);
    }
  }

  ghost function EngineSiteKeys(siteId: string): iset<string> {
    EitherPrefixKeys("resp|" + siteId + "|", "vary|" + siteId + "|")
  }

  ghost function RangeSiteKeys(siteId: string): iset<string> {
    EitherPrefixKeys("rmeta|resp|" + siteId + "|", "rchunk|resp|" + siteId + "|") + PrefixKeys("rvary|" + siteId + "|")
  }

  ghost function SiteKeys(siteId: string): iset<string> {
    EngineSiteKeys(siteId) + RangeSiteKeys(siteId)
  }

  method PurgeEngineSite(store: BadgerStore, siteId: string) returns (deleted: nat)
    requires Sound(store.State())
    modifies store
    ensures Sound(store.State()) && Cleared(old(store.State()), store.State(), EngineSiteKeys(siteId), deleted)
  {
    deleted := ClearPrefixes(store, "resp|" + siteId + "|", "vary|" + siteId + "|");
  }

  method PurgeRangeSite(store: BadgerStore, siteId: string) returns (deleted: nat)
    requires Sound(store.State())
    modifies store
    ensures Sound(store.State()) && Cleared(old(store.State()), store.State(), RangeSiteKeys(siteId), deleted)
  {
    hide Sound, Cleared, PrefixKeys, EitherPrefixKeys;
    ghost var st0 := store.State();
    var chunked := ClearPrefixes(store, "rmeta|resp|" + siteId + "|", "rchunk|resp|" + siteId + "|");
    ghost var st1 := store.State();
    var names := ClearPrefix(store, "rvary|" + siteId + "|");
    ClearedTransitive(st0, st1, store.State(), EitherPrefixKeys("rmeta|resp|" + siteId + "|",
                                                                "rchunk|resp|" + siteId + "|"),
                      PrefixKeys("rvary|" + siteId + "|"), chunked, names);
    deleted := chunked + names;
  }

  // Purges a site from both caches.
  method PurgeSite(store: BadgerStore, siteId: string) returns (deleted: nat)
    requires Sound(store.State())
    modifies store
    ensures Sound(store.State()) && Cleared(old(store.State()), store.State(), SiteKeys(siteId), deleted)
  {
    hide Sound, Cleared, EngineSiteKeys, RangeSiteKeys;
    ghost var st0 := store.State();
    var regular := PurgeEngineSite(store, siteId);
    ghost var st1 := store.State();
    var ranges := PurgeRangeSite(store, siteId);
    ClearedTransitive(st0, st1, store.State(), EngineSiteKeys(siteId), RangeSiteKeys(siteId), regular, ranges);
    deleted := regular + ranges;
  }

  // A key with the site's part in front belongs to that site, if site ids have no bar.
  lemma SitePart(lead: string, site: string, site': string, rest: string)
    requires '|' !in site && '|' !in site'
    ensures HasPrefix(lead + site' + "|" + rest, lead + site + "|") <==> site == site'
  {
    var key, prefix := lead + site' + "|" + rest, lead + site + "|";
    if site == site' {
      assert key[..|prefix|] == prefix;
    }
    if HasPrefix(key, prefix) {
      var more := key[|prefix|..];
      assert key == lead + (site + ['|'] + more) == lead + (site' + ['|'] + rest);
      assert key[|lead|..] == site + ['|'] + more == site' + ['|'] + rest;
      CutAtFirst(site, '|', more);
      CutAtFirst(site', '|', rest);
    }
  }

  const LEADS: set<string> := {"resp|", "vary|", "rmeta|resp|", "rchunk|resp|", "rvary|"}

  // No key starts in two of the ways.
  lemma OneLead(key: string, lead: string, lead': string)
    requires lead in LEADS && lead' in LEADS && HasPrefix(key, lead) && HasPrefix(key, lead')
    ensures lead == lead'
  {
    OneKind(key);
    assert HasPrefix(key, "rmeta|resp|") ==> key[1] == 'm';
    assert HasPrefix(key, "rchunk|resp|") ==> key[1] == 'c';
    assert HasPrefix(key, "resp|") ==> key[1] == 'e';
    assert HasPrefix(key, "rvary|") ==> key[1] == 'v';
    assert HasPrefix(key, "vary|") ==> key[1] == 'a';
  }

  lemma KeyOfSite(lead: string, site: string, site': string, rest: string, key: string)
    requires '|' !in site && '|' !in site' && lead in LEADS && key == lead + site' + "|" + rest
    ensures key in SiteKeys(site) <==> site == site'
  {
    hide HasPrefix;
    SitePart(lead, site, site', rest);
    assert HasPrefix(key, lead) by { StartsWithLead(lead, site' + "|" + rest, key); }
    forall other: string | other in LEADS && HasPrefix(key, other + site + "|")
      ensures other == lead
    {
      StartsWithLead(other, site + "|", other + site + "|");
      PrefixTransitive(other, other + site + "|", key);
      OneLead(key, lead, other);
    }
  }

  lemma StartsWithLead(lead: string, rest: string, key: string)
    requires key == lead + rest
    ensures HasPrefix(key, lead)
  {
  }

  // A site purge covers a URL's records exactly if the URL is of that site.
  lemma SiteKeysExact(site: string, site': string, path: string, rawQuery: string, key: string, index: nat)
    requires '|' !in site && '|' !in site'
    requires IsObjectKey(BaseKey(site', path, rawQuery), key)
    ensures var base := BaseKey(site', path, rawQuery);
            var keys := {key, VaryKey(base), RangeObjectKey(key), RangeChunkKey(key, index), RangeVaryKey(base)};
            forall k :: k in keys ==> (k in SiteKeys(site) <==> site == site')
  {
    hide SiteKeys, PadInt, BaseKey, Written;
    var base, rest := BaseKey(site', path, rawQuery), "GET|" + Written(path, rawQuery);
    KeyIsWritten(site', path, rawQuery);
    var more := Extension(base, key);
    KeyOfSite("resp|", site, site', rest + more, key);
    KeyOfSite("vary|", site, site', rest, VaryKey(base));
    KeyOfSite("rvary|", site, site', rest, RangeVaryKey(base));
    KeyOfSite("rmeta|resp|", site, site', rest + more, RangeObjectKey(key));
    KeyOfSite("rchunk|resp|", site, site', rest + more + "|" + PadInt(index, 20), RangeChunkKey(key, index));
  }

  // What an object key appends to the URL's response key.
  lemma Extension(base: string, key: string) returns (more: string)
    requires IsObjectKey(base, key)
    ensures key == "resp|" + base + more
  {
    var root := ResponseKey(base);
    if key != root { PrefixTransitive(root, VariantPrefix(base), key); }
    more := key[|root|..];
    assert key == key[..|root|] + more;
  }
}
