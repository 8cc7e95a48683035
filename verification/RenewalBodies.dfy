/** What storing an engine response does to body files: fills always leave the store
    sound, renewals exactly when the Vary names stay. */
module RenewalBodies {
  import opened Text
  import opened Headers
  import opened CacheKeys
  import opened Freshness
  import opened BlobStore
  import opened RangeModel
  import opened RangeCaching
  import opened KeySpace

  // A put that names the body the key already has removes nothing.
  lemma PutSameBody(w: World, st: StoreState, key: string, entry: Entry)
    requires BodyAt(st, key) == entry.response.bodyPath
    ensures PutEntryState(w, st, key, entry).files == st.files
  {
    LapseBody(w, st, key);
  }

  lemma DeleteFiles(w: World, st: StoreState, key: string)
    ensures forall p :: p in DeleteState(w, st, key).files ==> p in st.files
    ensures key !in st.records ==> DeleteState(w, st, key).files == st.files
    ensures !DeleteState(w, st, key).expired && HasPrefix(key, "resp|") && BodyAt(st, key) != NoPath ==>
              BodyAt(st, key) !in DeleteState(w, st, key).files
    ensures HasPrefix(key, "vary|") ==> DeleteState(w, st, key).files == st.files
  {
    OneKind(key);
    if !Lapse(w, st).expired { assert Lapse(w, st).records == st.records; }
  }

  lemma DeletePrefixFiles(w: World, st: StoreState, prefix: string)
    ensures forall p :: p in DeletePrefixState(w, st, prefix).files ==> p in st.files
    ensures (forall k :: k in st.records ==> !HasPrefix(k, prefix)) ==>
              DeletePrefixState(w, st, prefix).files == st.files
    ensures !DeletePrefixState(w, st, prefix).expired ==>
              forall k :: k in st.records && HasPrefix(k, prefix) && BodyAt(st, k) != NoPath ==>
                BodyAt(st, k) !in DeletePrefixState(w, st, prefix).files
  {
    var st1 := Lapse(w, st);
    if !st1.expired {
      assert st1.records == st.records;
      forall k | k in st.records && HasPrefix(k, prefix) && BodyAt(st, k) != NoPath
        ensures BodyAt(st, k) in Bodies(st1, Matching(st1, prefix))
      {
        assert BodyAt(st1, k) == BodyAt(st, k) && k in Matching(st1, prefix);
      }
    }
    if forall k :: k in st.records ==> !HasPrefix(k, prefix) {
      assert Matching(st1, prefix) == {};
      assert Bodies(st1, {}) == {};
    }
  }

  lemma PutFiles(w: World, st: StoreState, key: string, entry: Entry)
    ensures forall p :: p in PutEntryState(w, st, key, entry).files ==> p in st.files
  {
  }

  // The store just before the entry is put.
  function BeforePut(w: World, st: StoreState, base: string, names: seq<string>): StoreState {
    if names == [] then DeleteState(w, DeletePrefixState(w, st, VariantPrefix(base)), VaryKey(base))
      else NamesWritten(w, st, base, names)
  }

  lemma BeforePutSound(w: World, st: StoreState, base: string, names: seq<string>)
    requires Sound(st)
    ensures Sound(BeforePut(w, st, base, names))
  {
    hide Sound, DeleteState, DeletePrefixState, Lapse;
    Kinds(base);
    DeletePrefixSound(w, st, VariantPrefix(base));
    DeleteSound(w, DeletePrefixState(w, st, VariantPrefix(base)), VaryKey(base));
    LapseSound(w, st);
    var st1 := Lapse(w, st);
    DeletePrefixSound(w, st1, VariantPrefix(base));
    DeleteSound(w, st1, ResponseKey(base));
    DeleteSound(w, DeletePrefixState(w, st1, VariantPrefix(base)), ResponseKey(base));
    PutVarySound(Unreached(w, st, base, names), VaryKey(base), names);
  }

  lemma LooseAfterDelete(w: World, st: StoreState, key: string, path: BodyPath)
    requires Loose(st, path)
    ensures Loose(DeleteState(w, st, key), path)
  {
    var st1, st' := Lapse(w, st), DeleteState(w, st, key);
    assert forall k :: k in st'.records ==> k in st.records && BodyAt(st', k) == BodyAt(st, k);
    LapseBody(w, st, key);
  }

  lemma LooseAfterDeletePrefix(w: World, st: StoreState, prefix: string, path: BodyPath)
    requires Loose(st, path)
    ensures Loose(DeletePrefixState(w, st, prefix), path)
  {
    var st1, st' := Lapse(w, st), DeletePrefixState(w, st, prefix);
    assert forall k :: k in st1.records ==> k in st.records && BodyAt(st1, k) == BodyAt(st, k);
    assert forall k :: k in st'.records ==> k in st.records && BodyAt(st', k) == BodyAt(st, k);
  }

  lemma LooseAfterLapse(w: World, st: StoreState, path: BodyPath)
    requires Loose(st, path)
    ensures Loose(Lapse(w, st), path)
  {
    var st' := Lapse(w, st);
    assert forall k :: k in st'.records ==> k in st.records && BodyAt(st', k) == BodyAt(st, k);
  }

  lemma LooseAfterVary(st: StoreState, base: string, names: seq<string>, path: BodyPath)
    requires Loose(st, path)
    ensures Loose(PutVaryState(st, VaryKey(base), names), path)
  {
    Kinds(base);
    OneKind(VaryKey(base));
    var st' := PutVaryState(st, VaryKey(base), names);
    assert forall k :: k in st'.records && k != VaryKey(base) ==> BodyAt(st', k) == BodyAt(st, k);
  }

  lemma LooseBeforePut(w: World, st: StoreState, base: string, names: seq<string>, path: BodyPath)
    requires Loose(st, path)
    ensures Loose(BeforePut(w, st, base, names), path)
  {
    hide Loose, DeleteState, DeletePrefixState, Lapse, PutVaryState;
    var st1 := Lapse(w, st);
    LooseAfterDeletePrefix(w, st, VariantPrefix(base), path);
    LooseAfterDelete(w, DeletePrefixState(w, st, VariantPrefix(base)), VaryKey(base), path);
    LooseAfterLapse(w, st, path);
    LooseAfterDeletePrefix(w, st1, VariantPrefix(base), path);
    LooseAfterDelete(w, st1, ResponseKey(base), path);
    LooseAfterDelete(w, DeletePrefixState(w, st1, VariantPrefix(base)), ResponseKey(base), path);
    LooseAfterVary(Unreached(w, st, base, names), base, names, path);
  }

  // Storing a response with a body of its own keeps the store sound.
  lemma FillKeepsSound(w: World, st: StoreState, base: string, entry: Entry, names: seq<string>)
    requires Sound(st) && IsObjectKey(base, entry.key) && (names == [] ==> entry.key == ResponseKey(base))
    requires entry.response.bodyPath == NoPath || (entry.response.bodyPath.Blob? && Loose(st, entry.response.bodyPath))
    ensures Sound(StoreResponseState(w, st, base, entry, names))
  {
    hide Sound, PutEntryState;
    Kinds(base);
    BeforePutSound(w, st, base, names);
    if entry.response.bodyPath != NoPath {
      LooseBeforePut(w, st, base, names, entry.response.bodyPath);
      LooseFacts(BeforePut(w, st, base, names), entry.response.bodyPath);
    }
    PutEntrySound(w, BeforePut(w, st, base, names), entry.key, entry);
  }

  // Where the entry a request found is, and which body it names.
  lemma FoundPlace(digest: string -> string, base: string, st: StoreState, h: Header)
    requires Sound(st) && KeySpaceOk(digest, base, st) && Found(digest, base, st, h).Some?
    ensures var spec, key := VaryAt(st, VaryKey(base)), LookupKey(digest, base, h, VaryAt(st, VaryKey(base)));
            IsObjectKey(base, key) && key in st.records &&
            BodyAt(st, key) == Found(digest, base, st, h).value.response.bodyPath &&
            (if spec.None? then key == ResponseKey(base)
             else IsVariantKey(base, key) && key == StorageKey(digest, base, spec.value, h) &&
                  ResponseKey(base) !in st.records)
  {
    hide Fingerprint;
    var spec := VaryAt(st, VaryKey(base));
    KeysAreObjectKeys(digest, base, [], h, spec);
    Kinds(base);
    if spec.Some? { assert spec.value != []; }
  }

  lemma SpecKept(w: World, st: StoreState, base: string)
    requires !Lapse(w, st).expired
    ensures VaryAt(Lapse(w, st), VaryKey(base)) == VaryAt(st, VaryKey(base)) && Lapse(w, st).records == st.records &&
            Lapse(w, st).files == st.files
  {
  }

  // Dropping what the names make unreachable takes the found entry's body with it,
  // unless the names are those it was found under.
  lemma BodyAfterNames(w: World, digest: string -> string, base: string, st: StoreState, names: seq<string>, h: Header)
    requires Sound(st) && KeySpaceOk(digest, base, st) && Found(digest, base, st, h).Some? &&
             !BeforePut(w, st, base, names).expired
    requires Found(digest, base, st, h).value.response.bodyPath != NoPath
    ensures var st', path := BeforePut(w, st, base, names), Found(digest, base, st, h).value.response.bodyPath;
            (path in st'.files <==> OptionalNames(names) == VaryAt(st, VaryKey(base)))
    ensures OptionalNames(names) == VaryAt(st, VaryKey(base)) ==>
              var key := LookupKey(digest, base, h, VaryAt(st, VaryKey(base)));
              BodyAt(BeforePut(w, st, base, names), key) == BodyAt(st, key) && key == StorageKey(digest, base, names, h)
  {
    hide Sound, KeySpaceOk, LookupKey, Found, StorageKey, DeleteState, DeletePrefixState, Lapse, BodyAt;
    FoundPlace(digest, base, st, h);
    BodyOnDisk(digest, base, st, h);
    Kinds(base);
    if names == [] {
      PlainStorage(digest, base, names, h);
      PlainBodies(w, digest, base, st, h);
    } else {
      VariantBodies(w, digest, base, st, names, h);
    }
  }

  lemma BodyOnDisk(digest: string -> string, base: string, st: StoreState, h: Header)
    requires Sound(st) && KeySpaceOk(digest, base, st) && Found(digest, base, st, h).Some?
    ensures var path := Found(digest, base, st, h).value.response.bodyPath;
            path != NoPath ==> path.Blob? && path in st.files
  {
    FoundPlace(digest, base, st, h);
  }

  lemma PlainBodies(w: World, digest: string -> string, base: string, st: StoreState, h: Header)
    requires Sound(st) && KeySpaceOk(digest, base, st) && Found(digest, base, st, h).Some? &&
             !BeforePut(w, st, base, []).expired
    requires Found(digest, base, st, h).value.response.bodyPath != NoPath
    ensures var st', path, spec := BeforePut(w, st, base, []), Found(digest, base, st, h).value.response.bodyPath,
              VaryAt(st, VaryKey(base));
            (path in st'.files <==> spec.None?) &&
            (spec.None? ==> BodyAt(st', ResponseKey(base)) == BodyAt(st, ResponseKey(base)) &&
                            LookupKey(digest, base, h, spec) == ResponseKey(base))
  {
    hide Sound, LookupKey, Found, StorageKey, DeleteState, DeletePrefixState, Lapse, BodyAt, IsVariant, OwnEntry;
    FoundPlace(digest, base, st, h);
    BodyOnDisk(digest, base, st, h);
    Kinds(base);
    var st1 := DeletePrefixState(w, st, VariantPrefix(base));
    DeletedShape(w, st1, VaryKey(base));
    DeletePrefixShape(w, st, VariantPrefix(base));
    DeletePrefixFiles(w, st, VariantPrefix(base));
    DeleteFiles(w, st1, VaryKey(base));
    if VaryAt(st, VaryKey(base)).None? {
      SameBodyAt(st, BeforePut(w, st, base, []), ResponseKey(base));
    }
  }

  lemma SameBodyAt(st: StoreState, st': StoreState, key: string)
    requires Lookup(st', key) == Lookup(st, key)
    ensures BodyAt(st', key) == BodyAt(st, key)
  {
  }

  lemma VariantBodies(w: World, digest: string -> string, base: string, st: StoreState, names: seq<string>, h: Header)
    requires Sound(st) && KeySpaceOk(digest, base, st) && Found(digest, base, st, h).Some? && names != [] &&
             !BeforePut(w, st, base, names).expired
    requires Found(digest, base, st, h).value.response.bodyPath != NoPath
    ensures var st', path, spec := BeforePut(w, st, base, names), Found(digest, base, st, h).value.response.bodyPath,
              VaryAt(st, VaryKey(base));
            var key := LookupKey(digest, base, h, spec);
            (path in st'.files <==> spec == Some(names)) &&
            (spec == Some(names) ==> BodyAt(st', key) == BodyAt(st, key) && key == StorageKey(digest, base, names, h))
  {
    hide Sound, LookupKey, Found, StorageKey, DeleteState, DeletePrefixState, Lapse, BodyAt, IsVariant, OwnEntry;
    FoundPlace(digest, base, st, h);
    BodyOnDisk(digest, base, st, h);
    Kinds(base);
    var st1, spec := Lapse(w, st), VaryAt(st, VaryKey(base));
    var differs := DeletePrefixState(w, st1, VariantPrefix(base));
    DeletedShape(w, st1, ResponseKey(base));
    DeletedShape(w, differs, ResponseKey(base));
    DeletePrefixShape(w, st1, VariantPrefix(base));
    LapseShape(w, st);
    SpecKept(w, st, base);
    var key := LookupKey(digest, base, h, spec);
    SameBodyAt(st, st1, key);
    SameBodyAt(st, st1, ResponseKey(base));
    DeletePrefixFiles(w, st1, VariantPrefix(base));
    DeleteFiles(w, st1, ResponseKey(base));
    DeleteFiles(w, differs, ResponseKey(base));
    if spec == Some(names) {
      SameBodyAt(st, BeforePut(w, st, base, names), key);
    }
  }

  // A renewal puts the found entry's body under the names of the merged fields. The
  // body is still there, and the store still sound, exactly if those are the names the
  // entry was found under.
  lemma RenewalKeepsBodyIff(w: World, digest: string -> string, base: string, st: StoreState, updated: Entry,
                            names: seq<string>, h: Header)
    requires Sound(st) && KeySpaceOk(digest, base, st) && Found(digest, base, st, h).Some?
    requires updated.key == StorageKey(digest, base, names, h)
    requires updated.response.bodyPath == Found(digest, base, st, h).value.response.bodyPath != NoPath
    requires !StoreResponseState(w, st, base, updated, names).expired
    ensures var st' := StoreResponseState(w, st, base, updated, names);
            (updated.response.bodyPath in st'.files <==> OptionalNames(names) == VaryAt(st, VaryKey(base))) &&
            (Sound(st') <==> OptionalNames(names) == VaryAt(st, VaryKey(base)))
  {
    hide Sound, KeySpaceOk, LookupKey, Found, StorageKey, PutEntryState, BodyAt, NamesWritten, DeleteState,
         DeletePrefixState;
    var before, st', path := BeforePut(w, st, base, names), StoreResponseState(w, st, base, updated, names),
        updated.response.bodyPath;
    Kinds(base);
    KeysAreObjectKeys(digest, base, names, h, None);
    PlainStorage(digest, base, names, h);
    BeforePutSound(w, st, base, names);
    PutEntryShape(w, before, updated);
    BodyAfterNames(w, digest, base, st, names, h);
    FoundPlace(digest, base, st, h);
    if OptionalNames(names) == VaryAt(st, VaryKey(base)) {
      PutSameBody(w, before, updated.key, updated);
      BodyMayPut(before, updated.key);
      PutEntrySound(w, before, updated.key, updated);
    } else {
      PutFiles(w, before, updated.key, updated);
      MissingBody(st', updated);
    }
  }

  lemma PutEntryShape(w: World, st: StoreState, entry: Entry)
    requires !PutEntryState(w, st, entry.key, entry).expired
    ensures !st.expired && EntryAt(PutEntryState(w, st, entry.key, entry), entry.key) == Some(entry)
  {
    PutShape(w, st, entry.key, EntryRecord(entry), entry.windows.invalidAt, entry.response.bodyPath);
  }

  lemma BodyMayPut(st: StoreState, key: string)
    requires Sound(st)
    ensures BodyAt(st, key) != NoPath ==> MayPut(st, key, BodyAt(st, key))
  {
  }

  lemma MissingBody(st: StoreState, entry: Entry)
    requires EntryAt(st, entry.key) == Some(entry) && HasPrefix(entry.key, "resp|") &&
             entry.response.bodyPath != NoPath && entry.response.bodyPath !in st.files
    ensures !Sound(st)
  {
    assert BodyAt(st, entry.key) == entry.response.bodyPath;
  }

  // At most the given key names the body, which is on disk.
  ghost predicate NamedAtMostBy(st: StoreState, path: BodyPath, key: string) {
    path in st.files && forall k :: k in st.records && k != key ==> BodyAt(st, k) != path
  }

  lemma StillNamed(w: World, st: StoreState, path: BodyPath, key: string, other: string, prefix: string)
    requires NamedAtMostBy(st, path, key) && other != key && !HasPrefix(key, prefix) && path != NoPath
    ensures NamedAtMostBy(DeleteState(w, st, other), path, key) &&
            NamedAtMostBy(DeletePrefixState(w, st, prefix), path, key)
    ensures NamedAtMostBy(Lapse(w, st), path, key)
  {
    var st1 := Lapse(w, st);
    assert forall k :: k in st1.records ==> k in st.records && BodyAt(st1, k) == BodyAt(st, k);
    var a, b := DeleteState(w, st, other), DeletePrefixState(w, st, prefix);
    assert forall k :: k in a.records ==> k in st.records && BodyAt(a, k) == BodyAt(st, k);
    assert forall k :: k in b.records ==> k in st.records && BodyAt(b, k) == BodyAt(st, k);
    LapseBody(w, st, other);
  }

  lemma NamedAfterVary(st: StoreState, base: string, names: seq<string>, path: BodyPath, key: string)
    requires NamedAtMostBy(st, path, key) && path != NoPath
    ensures NamedAtMostBy(PutVaryState(st, VaryKey(base), names), path, key)
  {
    Kinds(base);
    OneKind(VaryKey(base));
    var st' := PutVaryState(st, VaryKey(base), names);
    assert forall k :: k in st'.records && k != VaryKey(base) ==> BodyAt(st', k) == BodyAt(st, k);
  }

  // A renewal under the names the entry was found under keeps its body on disk, and leaves
  // no record without its file, whatever expires meanwhile.
  lemma RenewalKeepsSound(w: World, digest: string -> string, base: string, st: StoreState, updated: Entry,
                          names: seq<string>, h: Header)
    requires Sound(st) && KeySpaceOk(digest, base, st) && Found(digest, base, st, h).Some?
    requires updated.key == StorageKey(digest, base, names, h)
    requires updated.response.bodyPath == Found(digest, base, st, h).value.response.bodyPath
    requires OptionalNames(names) == VaryAt(st, VaryKey(base))
    ensures Sound(StoreResponseState(w, st, base, updated, names))
    ensures updated.response.bodyPath == NoPath ||
            updated.response.bodyPath in StoreResponseState(w, st, base, updated, names).files
  {
    hide Sound, KeySpaceOk, LookupKey, Found, StorageKey, PutEntryState, BodyAt, DeleteState, DeletePrefixState,
         NamedAtMostBy, PutVaryState, Lapse;
    var path, key := updated.response.bodyPath, updated.key;
    Kinds(base);
    KeysAreObjectKeys(digest, base, names, h, None);
    PlainStorage(digest, base, names, h);
    FoundPlace(digest, base, st, h);
    BodyOnDisk(digest, base, st, h);
    BeforePutSound(w, st, base, names);
    SameKey(digest, base, names, h, VaryAt(st, VaryKey(base)));
    if path != NoPath {
      NamedByFound(st, key);
      if names == [] {
        StillNamed(w, st, path, key, VaryKey(base), VariantPrefix(base));
        StillNamed(w, DeletePrefixState(w, st, VariantPrefix(base)), path, key, VaryKey(base), VariantPrefix(base));
      } else {
        StillNamed(w, st, path, key, ResponseKey(base), VaryKey(base));
        LapsedNames(w, st, base);
        StillNamed(w, Lapse(w, st), path, key, ResponseKey(base), VaryKey(base));
        NamedAfterVary(DeleteState(w, Lapse(w, st), ResponseKey(base)), base, names, path, key);
      }
      NamedMayPut(BeforePut(w, st, base, names), path, key);
      PutKeepsNamed(w, BeforePut(w, st, base, names), path, key, updated);
    }
    PutEntrySound(w, BeforePut(w, st, base, names), key, updated);
  }

  // A fill records the names its response lists and Origin where that is managed, while
  // a renewal stores under the listed names alone. So a 304 that leaves Vary as it was
  // keeps the names exactly if Origin is not managed for the filled request and response,
  // or Vary lists it.
  lemma ConfirmedNamesIff(w: World, digest: string -> string, base: string, st: StoreState, entry: Entry, h: Header,
                          response: Header, listed: seq<string>)
    requires KeySpaceOk(digest, base, st) && ParseVary(Values(response, "Vary")) == Some(listed)
    requires entry.key == StorageKey(digest, base, EffectiveVary(h, Some(response), listed), h)
    ensures var st' := StoreResponseState(w, st, base, entry, EffectiveVary(h, Some(response), listed));
            OptionalNames(listed) == VaryAt(st', VaryKey(base)) <==>
              !ManagedVaryOnOrigin(h, Some(response)) || "Origin" in listed
  {
    hide KeySpaceOk, StoreResponseState, StorageKey, EffectiveVary, ManagedVaryOnOrigin, ParseVary;
    ParsedAreNames(Values(response, "Vary"));
    EffectiveVaryKeepsIff(h, Some(response), listed);
    StoreKeeps(w, digest, base, st, entry, EffectiveVary(h, Some(response), listed), h);
  }

  // The body of a fill that is then renewed, for the same request, by a 304 that leaves
  // Vary as it was: it is still there under exactly that condition, and gone otherwise.
  lemma ConfirmedBodyIff(w: World, digest: string -> string, base: string, st: StoreState, entry: Entry, h: Header,
                         response: Header, listed: seq<string>, updated: Entry)
    requires Sound(st) && KeySpaceOk(digest, base, st) && ParseVary(Values(response, "Vary")) == Some(listed)
    requires entry.key == StorageKey(digest, base, EffectiveVary(h, Some(response), listed), h)
    requires entry.response.bodyPath.Blob? && Loose(st, entry.response.bodyPath)
    requires updated.key == StorageKey(digest, base, listed, h) &&
             updated.response.bodyPath == entry.response.bodyPath
    requires var filled := StoreResponseState(w, st, base, entry, EffectiveVary(h, Some(response), listed));
             !StoreResponseState(w, filled, base, updated, listed).expired
    ensures var filled := StoreResponseState(w, st, base, entry, EffectiveVary(h, Some(response), listed));
            var renewed := StoreResponseState(w, filled, base, updated, listed);
            Found(digest, base, filled, h) == Some(entry) && entry.response.bodyPath in filled.files &&
            (entry.response.bodyPath in renewed.files <==>
               !ManagedVaryOnOrigin(h, Some(response)) || "Origin" in listed) &&
            (Sound(renewed) <==> !ManagedVaryOnOrigin(h, Some(response)) || "Origin" in listed)
  {
    hide Sound, KeySpaceOk, StoreResponseState, StorageKey, EffectiveVary, ManagedVaryOnOrigin, ParseVary, LookupKey,
         Loose, StaysWithin, Found;
    var names := EffectiveVary(h, Some(response), listed);
    var filled := StoreResponseState(w, st, base, entry, names);
    KeysAreObjectKeys(digest, base, names, h, None);
    KeysAreObjectKeys(digest, base, listed, h, None);
    PlainStorage(digest, base, names, h);
    PlainStorage(digest, base, listed, h);
    ExpiryStays(w, base, filled, updated, listed);
    FillKeepsSound(w, st, base, entry, names);
    StoreKeeps(w, digest, base, st, entry, names, h);
    StoredFoundIff(w, digest, base, st, entry, names, h, h);
    FillMeetsLookup(digest, base, h, Some(response), listed, OptionalNames(names));
    BodyOnDisk(digest, base, filled, h);
    ConfirmedNamesIff(w, digest, base, st, entry, h, response, listed);
    RenewalKeepsBodyIff(w, digest, base, filled, updated, listed, h);
  }

  lemma ExpiryStays(w: World, base: string, st: StoreState, entry: Entry, names: seq<string>)
    requires IsObjectKey(base, entry.key) && (names == [] ==> entry.key == ResponseKey(base))
    ensures st.expired ==> StoreResponseState(w, st, base, entry, names).expired
  {
    hide StoreResponseState;
    StoreWithin(w, st, base, entry, names);
  }

  lemma PutKeepsNamed(w: World, st: StoreState, path: BodyPath, key: string, entry: Entry)
    requires NamedAtMostBy(st, path, key) && entry.response.bodyPath == path
    ensures path in PutEntryState(w, st, key, entry).files
  {
  }

  lemma SameKey(digest: string -> string, base: string, names: seq<string>, h: Header, spec: Option<seq<string>>)
    requires OptionalNames(names) == spec
    ensures names != [] ==> LookupKey(digest, base, h, spec) == StorageKey(digest, base, names, h)
    ensures names == [] ==> StorageKey(digest, base, names, h) == ResponseKey(base)
  {
  }

  lemma NamedByFound(st: StoreState, key: string)
    requires Sound(st) && key in st.records && BodyAt(st, key) != NoPath
    ensures NamedAtMostBy(st, BodyAt(st, key), key)
  {
  }

  lemma LapsedNames(w: World, st: StoreState, base: string)
    ensures VaryAt(Lapse(w, st), VaryKey(base)) == VaryAt(st, VaryKey(base))
  {
    Kinds(base);
  }

  lemma NamedMayPut(st: StoreState, path: BodyPath, key: string)
    requires NamedAtMostBy(st, path, key) && path.Blob?
    ensures MayPut(st, key, path)
  {
  }
}
