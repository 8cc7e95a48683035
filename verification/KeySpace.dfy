/** The engine's two-level key space: a URL holds nothing, one plain response, or the
    names of a Vary field with the variants stored under them (section 4.1 of RFC 9111). */
module KeySpace {
  import opened Text
  import opened Headers
  import opened CacheKeys
  import opened Freshness
  import opened BlobStore
  import opened RangeModel
  import opened RangeCaching
  import opened Purging

  predicate IsVariantKey(base: string, key: string) {
    HasPrefix(key, VariantPrefix(base))
  }

  ghost predicate IsVariant(digest: string -> string, base: string, names: seq<string>, key: string) {
    exists h: Header :: key == VariantKey(digest, base, names, h)
  }

  ghost predicate OwnEntry(st: StoreState, key: string) {
    key in st.records ==> st.records[key].EntryRecord? && st.records[key].entry.key == key
  }

  // Nothing, or one plain response, or one list of names with variants under it.
  ghost predicate KeySpaceOk(digest: string -> string, base: string, st: StoreState) {
    (forall k :: IsObjectKey(base, k) ==> OwnEntry(st, k)) &&
    (VaryKey(base) in st.records ==> st.records[VaryKey(base)].VaryRecord?) &&
    match VaryAt(st, VaryKey(base))
    case None => forall k :: k in st.records ==> !IsVariantKey(base, k)
    case Some(names) =>
      names != [] && ResponseKey(base) !in st.records &&
      forall k :: k in st.records && IsVariantKey(base, k) ==> IsVariant(digest, base, names, k)
  }

  function StoreResponseState(w: World, st: StoreState, base: string, entry: Entry, names: seq<string>): StoreState {
    if names == [] then
      PutEntryState(w, DeleteState(w, DeletePrefixState(w, st, VariantPrefix(base)), VaryKey(base)), ResponseKey(base),
                    entry)
    else
      PutEntryState(w, NamesWritten(w, st, base, names), entry.key, entry)
  }

  // The store with the names recorded and whatever they make unreachable dropped.
  function NamesWritten(w: World, st: StoreState, base: string, names: seq<string>): StoreState {
    PutVaryState(Unreached(w, st, base, names), VaryKey(base), names)
  }

  lemma Kinds(base: string)
    ensures HasPrefix(VaryKey(base), "vary|") && HasPrefix(ResponseKey(base), "resp|") &&
            HasPrefix(VariantPrefix(base), "resp|")
    ensures forall k :: IsObjectKey(base, k) ==> HasPrefix(k, "resp|") && k != VaryKey(base)
    ensures !IsVariantKey(base, ResponseKey(base)) && !IsObjectKey(base, VaryKey(base))
    ensures !HasPrefix(VaryKey(base), "resp|") && !HasPrefix(VaryKey(base), "rchunk|")
  {
    forall k | IsObjectKey(base, k)
      ensures HasPrefix(k, "resp|") && k != VaryKey(base)
    {
      OtherKinds(base, k);
      OneKind(k);
    }
    OneKind(VaryKey(base));
    assert |VariantPrefix(base)| > |ResponseKey(base)|;
  }

  // What an operation on the store does to the records of one URL.
  ghost predicate KeepsAt(base: string, st: StoreState, st': StoreState) {
    (forall k :: k in st'.records && IsObjectKey(base, k) ==> k in st.records && st'.records[k] == st.records[k]) &&
    Lookup(st', VaryKey(base)) == Lookup(st, VaryKey(base))
  }

  // Losing responses keeps the key space.
  lemma LossKeeps(digest: string -> string, base: string, st: StoreState, st': StoreState)
    requires KeySpaceOk(digest, base, st) && KeepsAt(base, st, st')
    ensures KeySpaceOk(digest, base, st')
  {
    forall k | IsObjectKey(base, k)
      ensures OwnEntry(st', k)
    {
      assert OwnEntry(st, k);
    }
  }

  lemma LapseKeeps(w: World, digest: string -> string, base: string, st: StoreState)
    requires KeySpaceOk(digest, base, st)
    ensures KeySpaceOk(digest, base, Lapse(w, st)) && VaryAt(Lapse(w, st), VaryKey(base)) == VaryAt(st, VaryKey(base))
  {
    Kinds(base);
    LossKeeps(digest, base, st, Lapse(w, st));
  }

  // Storing an entry where no variant is left, or under the names of the others.
  lemma PutKeeps(w: World, digest: string -> string, base: string, st: StoreState, key: string, entry: Entry)
    requires KeySpaceOk(digest, base, st) && entry.key == key && IsObjectKey(base, key)
    requires var spec := VaryAt(st, VaryKey(base));
             if key == ResponseKey(base) then spec.None? else spec.Some? && IsVariant(digest, base, spec.value, key)
    ensures KeySpaceOk(digest, base, PutEntryState(w, st, key, entry))
    ensures VaryAt(PutEntryState(w, st, key, entry), VaryKey(base)) == VaryAt(st, VaryKey(base))
  {
    hide PutWithBody;
    Kinds(base);
    PutShape(w, st, key, EntryRecord(entry), entry.windows.invalidAt, entry.response.bodyPath);
    PutKeepsVary(w, st, key, entry, VaryKey(base));
    var st' := PutEntryState(w, st, key, entry);
    forall k | IsObjectKey(base, k)
      ensures OwnEntry(st', k)
    {
      assert OwnEntry(st, k);
    }
  }

  lemma PutKeepsVary(w: World, st: StoreState, key: string, entry: Entry, other: string)
    requires HasPrefix(other, "vary|") && other != key
    ensures Lookup(PutEntryState(w, st, key, entry), other) == Lookup(st, other)
  {
    hide BodyAt;
  }

  // The store without whatever the new names make unreachable.
  function Unreached(w: World, st: StoreState, base: string, names: seq<string>): StoreState {
    var st1 := Lapse(w, st);
    var existing := VaryAt(st1, VaryKey(base));
    var st2 := if existing.Some? && existing.value != names then DeletePrefixState(w, st1, VariantPrefix(base))
        else st1;
    DeleteState(w, st2, ResponseKey(base))
  }

  lemma UnreachedFacts(w: World, digest: string -> string, base: string, st: StoreState, names: seq<string>)
    requires KeySpaceOk(digest, base, st)
    ensures forall k :: k in Unreached(w, st, base, names).records && IsObjectKey(base, k) ==>
              k in st.records && Unreached(w, st, base, names).records[k] == st.records[k] && k != ResponseKey(base) &&
              (IsVariantKey(base, k) ==> IsVariant(digest, base, names, k))
  {
    hide IsVariant, OwnEntry, DeleteState, DeletePrefixState;
    Kinds(base);
    LapseKeeps(w, digest, base, st);
    var st1 := Lapse(w, st);
    var existing := VaryAt(st1, VaryKey(base));
    var st2 := if existing.Some? && existing.value != names then DeletePrefixState(w, st1, VariantPrefix(base))
        else st1;
    DeletePrefixShape(w, st1, VariantPrefix(base));
    DeletedShape(w, st2, ResponseKey(base));
  }

  // Writing new names describes whatever is left.
  lemma NamesKeep(w: World, digest: string -> string, base: string, st: StoreState, names: seq<string>)
    requires KeySpaceOk(digest, base, st) && names != []
    ensures KeySpaceOk(digest, base, NamesWritten(w, st, base, names)) &&
            VaryAt(NamesWritten(w, st, base, names), VaryKey(base)) == Some(names)
  {
    hide IsVariant, Unreached;
    Kinds(base);
    UnreachedFacts(w, digest, base, st, names);
    var st3 := Unreached(w, st, base, names);
    var st4 := PutVaryState(st3, VaryKey(base), names);
    forall k | IsObjectKey(base, k)
      ensures OwnEntry(st4, k)
    {
      assert OwnEntry(st, k);
    }
  }

  lemma DeletedShape(w: World, st: StoreState, key: string)
    ensures OnlyAt(st, DeleteState(w, st, key), iset{key}) && key !in DeleteState(w, st, key).records
  {
  }

  // Storing a response keeps the key space, and records its names.
  lemma StoreKeeps(w: World, digest: string -> string, base: string, st: StoreState, entry: Entry, names: seq<string>,
                   h: Header)
    requires KeySpaceOk(digest, base, st) && entry.key == StorageKey(digest, base, names, h)
    ensures var st' := StoreResponseState(w, st, base, entry, names);
            KeySpaceOk(digest, base, st') && VaryAt(st', VaryKey(base)) == OptionalNames(names)
  {
    hide KeySpaceOk, PutEntryState, NamesWritten, LookupKey, Fingerprint, IsVariant;
    Kinds(base);
    KeysAreObjectKeys(digest, base, names, h, None);
    if names == [] {
      PlainKeep(w, digest, base, st);
      PutKeeps(w, digest, base, DeleteState(w, DeletePrefixState(w, st, VariantPrefix(base)), VaryKey(base)),
               ResponseKey(base), entry);
    } else {
      NamesKeep(w, digest, base, st, names);
      VariantIs(digest, base, names, h);
      assert entry.key != ResponseKey(base);
      PutKeeps(w, digest, base, NamesWritten(w, st, base, names), entry.key, entry);
    }
  }

  lemma VariantIs(digest: string -> string, base: string, names: seq<string>, h: Header)
    ensures IsVariant(digest, base, names, VariantKey(digest, base, names, h)) &&
            VariantKey(digest, base, names, h) != ResponseKey(base)
  {
    assert |VariantKey(digest, base, names, h)| > |ResponseKey(base)|;
  }

  lemma PlainKeep(w: World, digest: string -> string, base: string, st: StoreState)
    requires KeySpaceOk(digest, base, st)
    ensures var st' := DeleteState(w, DeletePrefixState(w, st, VariantPrefix(base)), VaryKey(base));
            KeySpaceOk(digest, base, st') && VaryAt(st', VaryKey(base)) == None
  {
    Kinds(base);
    var st1 := DeletePrefixState(w, st, VariantPrefix(base));
    DeletePrefixShape(w, st, VariantPrefix(base));
    DeletedShape(w, st1, VaryKey(base));
    var st' := DeleteState(w, st1, VaryKey(base));
    forall k | IsObjectKey(base, k)
      ensures OwnEntry(st', k) && (k in st'.records ==> !IsVariantKey(base, k))
    {
      assert OwnEntry(st, k);
    }
  }

  datatype KeyOp = StoreOp(entry: Entry, names: seq<string>, h: Header) | PurgeOp | ExpiryOp | ForeignOp

  // One operation, by the engine on this URL or by anything else on other records.
  ghost predicate KeyStep(w: World, digest: string -> string, base: string, st: StoreState, op: KeyOp,
                          st': StoreState) {
    match op
    case StoreOp(entry, names, h) => entry.key == StorageKey(digest, base, names, h) &&
    st' == StoreResponseState(w, st, base, entry, names)
    case PurgeOp => exists n :: Cleared(st, st', UrlKeys(base), n)
    case ExpiryOp => st' == Lapse(w, st)
    case ForeignOp => KeepsAt(base, st, st')
  }

  // Over any run, a URL holds nothing, one plain response, or one list of names with
  // variants keyed under it.
  lemma {:induction false} RunKeepsKeySpace(w: World, digest: string -> string, base: string, states: seq<StoreState>,
                                            ops: seq<KeyOp>, n: nat)
    requires |states| == |ops| + 1 && n <= |ops| && KeySpaceOk(digest, base, states[0])
    requires forall i :: 0 <= i < |ops| ==> KeyStep(w, digest, base, states[i], ops[i], states[i + 1])
    ensures KeySpaceOk(digest, base, states[n])
  {
    hide KeySpaceOk, KeyStep;
    if n > 0 {
      RunKeepsKeySpace(w, digest, base, states, ops, n - 1);
      StepKeepsKeySpace(w, digest, base, states[n - 1], ops[n - 1], states[n]);
    }
  }

  lemma StepKeepsKeySpace(w: World, digest: string -> string, base: string, st: StoreState, op: KeyOp, st': StoreState)
    requires KeySpaceOk(digest, base, st) && KeyStep(w, digest, base, st, op, st')
    ensures KeySpaceOk(digest, base, st')
  {
    hide KeySpaceOk, StorageKey, StoreResponseState, Cleared, Lapse, KeepsAt;
    match op
    case StoreOp(entry, names, h) => StoreKeeps(w, digest, base, st, entry, names, h);
    case PurgeOp => PurgeKeeps(digest, base, st, st');
    case ExpiryOp => LapseKeeps(w, digest, base, st);
    case ForeignOp => LossKeeps(digest, base, st, st');
  }

  lemma PurgeKeeps(digest: string -> string, base: string, st: StoreState, st': StoreState)
    requires KeySpaceOk(digest, base, st) && exists n :: Cleared(st, st', UrlKeys(base), n)
    ensures KeySpaceOk(digest, base, st')
  {
    forall k | IsObjectKey(base, k)
      ensures k !in st'.records
    {
      assert k in UrlKeys(base);
    }
    assert VaryKey(base) in UrlKeys(base);
  }

  ghost predicate Apart(base: string, other: string) {
    base != other && !HasPrefix(other, base + "|vary") && !HasPrefix(base, other + "|vary")
  }

  // Two URLs share no keys, unless one continues the other like a variant key would.
  lemma ApartKeys(base: string, other: string, key: string)
    requires Apart(base, other) && IsObjectKey(base, key)
    ensures !IsObjectKey(other, key)
  {
    if IsObjectKey(other, key) {
      assert key[..5] == "resp|" by { OtherKinds(base, key); }
      var rest := key[5..];
      KeyRest(base, key);
      KeyRest(other, key);
      if rest == base || rest == other {
      } else if |base| < |other| {
        Continues(base, other, rest);
      } else {
        Continues(other, base, rest);
      }
    }
  }

  lemma KeyRest(base: string, key: string)
    requires IsObjectKey(base, key)
    ensures |key| >= 5 && (key[5..] == base || HasPrefix(key[5..], base + "|vary|"))
  {
    if key != ResponseKey(base) {
      assert key[5..][..|base + "|vary|"|] == VariantPrefix(base)[5..] == base + "|vary|";
    }
  }

  // Of two variant prefixes of one key, the longer starts with the shorter.
  lemma Continues(a: string, b: string, rest: string)
    requires HasPrefix(rest, a + "|vary|") && HasPrefix(rest, b + "|vary|") && |a| <= |b|
    ensures a == b || HasPrefix(b, a + "|vary")
  {
    var p, q := a + "|vary|", b + "|vary|";
    assert rest[..|a|] == p[..|a|] == a && rest[..|b|] == q[..|b|] == b;
    assert b[..|a|] == a;
    if |a| + 5 <= |b| {
      assert b[..|a| + 5] == rest[..|a| + 5] == p[..|a| + 5] == a + "|vary";
    }
    // The bar after b cannot fall among the letters after a.
    assert forall j :: 0 <= j < |p| ==> rest[j] == p[j];
    assert forall j :: |a| < j < |a| + 5 ==> p[j] == "|vary|"[j - |a|] != '|';
    assert rest[|b|] == q[|b|] == '|';
  }

  // What a lookup for the given fields finds.
  ghost function Found(digest: string -> string, base: string, st: StoreState, h: Header): Option<Entry> {
    EntryAt(st, LookupKey(digest, base, h, VaryAt(st, VaryKey(base))))
  }

  // While a URL has no names recorded, its plain response answers the requests without an
  // Origin, and those with one find nothing.
  lemma PlainFoundIff(digest: string -> string, base: string, st: StoreState, h: Header)
    requires KeySpaceOk(digest, base, st) && VaryAt(st, VaryKey(base)) == None
    ensures Found(digest, base, st, h) == if Values(h, "Origin") == [] then EntryAt(st, ResponseKey(base)) else None
  {
    hide LookupKey, Fingerprint, OwnEntry;
    LookupKeyIs(digest, base, h, None);
    if Values(h, "Origin") != [] {
      var key := LookupKey(digest, base, h, None);
      assert key == VariantPrefix(base) + digest(Fingerprint(["Origin"], h));
      assert IsVariantKey(base, key);
    }
  }

  // After storing an entry, the requests that find it are those that look where it is.
  lemma StoredFoundIff(w: World, digest: string -> string, base: string, st: StoreState, entry: Entry,
                       names: seq<string>, h: Header, h': Header)
    requires KeySpaceOk(digest, base, st) && entry.key == StorageKey(digest, base, names, h)
    requires !StoreResponseState(w, st, base, entry, names).expired
    ensures Found(digest, base, StoreResponseState(w, st, base, entry, names), h') == Some(entry) <==>
            LookupKey(digest, base, h', OptionalNames(names)) == StorageKey(digest, base, names, h)
  {
    hide LookupKey, StorageKey, VariantKey, PutWithBody;
    StoreKeeps(w, digest, base, st, entry, names, h);
    var st' := StoreResponseState(w, st, base, entry, names);
    var before := if names == [] then DeleteState(w, DeletePrefixState(w, st, VariantPrefix(base)), VaryKey(base))
        else NamesWritten(w, st, base, names);
    assert entry.key == ResponseKey(base) || names != [] by { PlainStorage(digest, base, names, h); }
    PutShape(w, before, entry.key, EntryRecord(entry), entry.windows.invalidAt, entry.response.bodyPath);
    assert EntryAt(st', entry.key) == Some(entry);
    KeysAreObjectKeys(digest, base, names, h', OptionalNames(names));
    assert OwnEntry(st', LookupKey(digest, base, h', OptionalNames(names)));
  }

  lemma PlainStorage(digest: string -> string, base: string, names: seq<string>, h: Header)
    ensures names == [] ==> StorageKey(digest, base, names, h) == ResponseKey(base)
  {
  }

  lemma ParseVaryPlain(values: seq<string>)
    requires NoneHas(values, '\n')
    ensures ParseVary(values).Some? ==> PlainNames(ParseVary(values).value)
  {
    if ParseVary(values).Some? {
      PartsKeepOut(values, '\n');
      CanonicalPlain(VaryParts(values), {});
      SortPlain(CanonicalNames(VaryParts(values), {}));
    }
  }

  lemma SortPlain(names: seq<string>)
    requires PlainNames(names)
    ensures PlainNames(Sort(names))
  {
    forall i | 0 <= i < |Sort(names)|
      ensures '\n' !in Sort(names)[i]
    {
      assert Sort(names)[i] in multiset(Sort(names));
      assert Sort(names)[i] in names;
    }
  }

  lemma {:induction false} CapitalizedPlain(s: string, upper: bool)
    requires '\n' !in s
    ensures '\n' !in Capitalized(s, upper)
  {
    if s != "" { CapitalizedPlain(s[1..], s[0] == '-'); }
  }

  lemma {:induction false} CanonicalPlain(names: seq<string>, seen: set<string>)
    requires NoneHas(names, '\n')
    ensures PlainNames(CanonicalNames(names, seen))
  {
    if names != [] {
      var canonical := CanonicalKey(TrimSpace(names[0]));
      TrimKeepsOut(names[0], '\n');
      CapitalizedPlain(TrimSpace(names[0]), true);
      CanonicalPlain(names[1..], seen);
      CanonicalPlain(names[1..], seen + {canonical});
    }
  }

  lemma EffectivePlain(h: Header, rh: Option<Header>, names: seq<string>)
    requires PlainNames(names)
    ensures PlainNames(EffectiveVary(h, rh, names))
  {
    var headers := names + (if ManagedVaryOnOrigin(h, rh) then ["Origin"] else []);
    CanonicalPlain(headers, {});
    SortPlain(CanonicalNames(headers, {}));
  }

  // After a fill for one request, a lookup for another finds the entry exactly when
  // all effective Vary fields normalise equally; with none, when it has no Origin.
  lemma FillFoundIff(w: World, digest: string -> string, base: string, st: StoreState, entry: Entry, response: Header,
                     decided: seq<string>, h: Header, h': Header)
    requires Injective(digest) && KeySpaceOk(digest, base, st) && OnOneLine(h) && OnOneLine(h') && PlainNames(decided)
    requires entry.key == StorageKey(digest, base, EffectiveVary(h, Some(response), decided), h)
    requires !StoreResponseState(w, st, base, entry, EffectiveVary(h, Some(response), decided)).expired
    ensures var names := EffectiveVary(h, Some(response), decided);
            var st' := StoreResponseState(w, st, base, entry, names);
            (Found(digest, base, st', h') == Some(entry) <==>
               if names != [] then SameOn(names, h, h') else !HasOrigin(h')) &&
            Found(digest, base, st', h) == Some(entry)
  {
    hide KeySpaceOk, StoreResponseState, EffectiveVary, Fingerprint, OnOneLine, VariantPrefix;
    var names := EffectiveVary(h, Some(response), decided);
    EffectivePlain(h, Some(response), decided);
    StoredFoundIff(w, digest, base, st, entry, names, h, h');
    StoredFoundIff(w, digest, base, st, entry, names, h, h);
    FillMeetsLookup(digest, base, h, Some(response), decided, OptionalNames(names));
    if names != [] {
      VariantKeyShared(digest, base, names, h, h');
    } else {
      PlainLookupIff(digest, base, h');
    }
  }

  // In tokens: a fill is not found by a request whose tokens of a listed field differ from
  // its own by more than case.
  lemma OtherTokensMiss(w: World, digest: string -> string, base: string, st: StoreState, entry: Entry,
                        response: Header, decided: seq<string>, h: Header, h': Header, name: string)
    requires Injective(digest) && KeySpaceOk(digest, base, st) && OnOneLine(h) && OnOneLine(h') && PlainNames(decided)
    requires entry.key == StorageKey(digest, base, EffectiveVary(h, Some(response), decided), h)
    requires !StoreResponseState(w, st, base, entry, EffectiveVary(h, Some(response), decided)).expired
    requires name in decided && name in {"Accept-Encoding", "Accept-Language"}
    requires var a, b := Tokens(Values(h, name)), Tokens(Values(h', name));
             |a| != |b| || exists i :: 0 <= i < |a| && Lower(a[i]) != Lower(b[i])
    ensures var st' := StoreResponseState(w, st, base, entry, EffectiveVary(h, Some(response), decided));
            Found(digest, base, st', h') != Some(entry) && Found(digest, base, st', h) == Some(entry)
  {
    hide KeySpaceOk, StoreResponseState, EffectiveVary, Fingerprint, OnOneLine, StorageKey, Found, Tokens, Normalize,
         CanonicalKey;
    var names := EffectiveVary(h, Some(response), decided);
    ListedIsEffective(h, response, decided, name);
    FillFoundIff(w, digest, base, st, entry, response, decided, h, h');
    TokenLists(name);
    TokensNormalizeIff(name, Values(h, name), Values(h', name));
    var i :| 0 <= i < |names| && names[i] == name;
    assert SameOn(names, h, h') ==> Normalize(name, Values(h, name)) == Normalize(name, Values(h', name));
  }

  lemma TokenLists(name: string)
    requires name in {"Accept-Encoding", "Accept-Language"}
    ensures IsTokenList(name) && CanonicalKey(name) == name
  {
    ListedFieldNames();
  }

  lemma ListedIsEffective(h: Header, response: Header, decided: seq<string>, name: string)
    requires name in decided && name in {"Accept-Encoding", "Accept-Language"}
    ensures name in EffectiveVary(h, Some(response), decided)
  {
    hide CanonicalKey, EffectiveVary;
    TokenLists(name);
    TrimNoSpaces(name);
    EffectiveNamesAre(h, response, decided, name);
  }

  // A response that varies on Accept-Encoding, filled for gzip, is no answer to a request
  // for identity.
  lemma IdentityMissesGzip(w: World, digest: string -> string, base: string, st: StoreState, entry: Entry,
                           response: Header, h: Header, h': Header)
    requires Injective(digest) && KeySpaceOk(digest, base, st) && OnOneLine(h) && OnOneLine(h')
    requires Values(h, "Accept-Encoding") == ["gzip"] && Values(h', "Accept-Encoding") == ["identity"]
    requires entry.key == StorageKey(digest, base, EffectiveVary(h, Some(response), ["Accept-Encoding"]), h)
    requires !StoreResponseState(w, st, base, entry, EffectiveVary(h, Some(response), ["Accept-Encoding"])).expired
    ensures Found(digest, base, StoreResponseState(w, st, base, entry,
                                                   EffectiveVary(h, Some(response), ["Accept-Encoding"])), h') !=
            Some(entry)
  {
    hide KeySpaceOk, StoreResponseState, EffectiveVary, OnOneLine, StorageKey, Found, Tokens, Lower;
    OneToken("gzip");
    OneToken("identity");
    LowerIs("gzip");
    LowerIs("identity");
    assert |Lower("gzip")| == 4 && |Lower("identity")| == 8;
    assert Tokens(["gzip"])[0] == "gzip" && Tokens(["identity"])[0] == "identity";
    OtherTokensMiss(w, digest, base, st, entry, response, ["Accept-Encoding"], h, h', "Accept-Encoding");
  }

  lemma OneToken(token: string)
    requires token != "" && ',' !in token && BareEnds(token)
    ensures Tokens([token]) == [token]
  {
    TokensOfList([token]);
  }

  // Without stored names, a request looks at the plain response exactly if it has no Origin.
  lemma PlainLookupIff(digest: string -> string, base: string, h: Header)
    ensures LookupKey(digest, base, h, None) == ResponseKey(base) <==> !HasOrigin(h)
  {
    hide Fingerprint, EffectiveVary;
    EffectiveVaryEmpty(h, None, []);
    assert |VariantPrefix(base)| > |ResponseKey(base)|;
  }

  // A renewal stores under the names of the merged fields alone, without the Origin
  // that lookups add: the same request finds the renewed entry exactly when there are
  // names or the request has no Origin.
  lemma RenewalFoundIff(w: World, digest: string -> string, base: string, st: StoreState, entry: Entry,
                        names: seq<string>, h: Header)
    requires KeySpaceOk(digest, base, st) && entry.key == StorageKey(digest, base, names, h)
    requires !StoreResponseState(w, st, base, entry, names).expired
    ensures Found(digest, base, StoreResponseState(w, st, base, entry, names), h) == Some(entry) <==>
              names != [] || !HasOrigin(h)
  {
    hide KeySpaceOk, StoreResponseState, Fingerprint;
    StoredFoundIff(w, digest, base, st, entry, names, h, h);
    if names == [] { PlainLookupIff(digest, base, h); }
  }

  // The keys the engine may touch for a URL.
  predicate EngineOwned(base: string, key: string) {
    key == VaryKey(base) || IsObjectKey(base, key)
  }

  // What any number of engine operations on a URL may do to the rest of the store.
  ghost predicate StaysWithin(base: string, st: StoreState, st': StoreState) {
    Grows(st.history, st'.history) && st.names <= st'.names && (st.expired ==> st'.expired) &&
    (forall k :: k in st'.records && !EngineOwned(base, k) ==> k in st.records && st'.records[k] == st.records[k]) &&
    (forall k :: k in st.records && !EngineOwned(base, k) && IsNamesKey(k) ==> k in st'.records) &&
    (!st'.expired ==> forall k :: k in st.records && !EngineOwned(base, k) ==> k in st'.records)
  }

  lemma WithinTransitive(base: string, a: StoreState, b: StoreState, c: StoreState)
    requires StaysWithin(base, a, b) && StaysWithin(base, b, c)
    ensures StaysWithin(base, a, c)
  {
  }

  // Operations on the URL's keys alone.
  lemma OnlyAtWithin(base: string, st: StoreState, st': StoreState, keys: iset<string>)
    requires OnlyAt(st, st', keys) && forall k :: k in keys ==> EngineOwned(base, k)
    ensures StaysWithin(base, st, st')
  {
  }

  // Changes to files alone.
  lemma FilesWithin(base: string, st: StoreState, st': StoreState)
    requires st'.records == st.records && st'.expired == st.expired && Grows(st.history, st'.history) &&
             st.names <= st'.names
    ensures StaysWithin(base, st, st')
  {
  }

  lemma LapseWithin(w: World, base: string, st: StoreState)
    ensures StaysWithin(base, st, Lapse(w, st))
  {
    hide EngineOwned;
    LapseShape(w, st);
    OnlyAtWithin(base, st, Lapse(w, st), iset{});
  }

  lemma DeletedWithin(w: World, base: string, st: StoreState, key: string)
    requires EngineOwned(base, key)
    ensures StaysWithin(base, st, DeleteState(w, st, key)) &&
            StaysWithin(base, st, DeletePrefixState(w, st, VariantPrefix(base)))
  {
    hide DeleteState, DeletePrefixState, StaysWithin, OnlyAt;
    DeletedShape(w, st, key);
    OnlyAtWithin(base, st, DeleteState(w, st, key), iset{key});
    DeletePrefixShape(w, st, VariantPrefix(base));
    OnlyAtWithin(base, st, DeletePrefixState(w, st, VariantPrefix(base)), iset k | HasPrefix(k, VariantPrefix(base)));
  }

  // Storing a response touches its own URL only.
  lemma StoreWithin(w: World, st: StoreState, base: string, entry: Entry, names: seq<string>)
    requires IsObjectKey(base, entry.key) && (names == [] ==> entry.key == ResponseKey(base))
    ensures StaysWithin(base, st, StoreResponseState(w, st, base, entry, names))
  {
    hide DeleteState, DeletePrefixState, StaysWithin, PutWithBody, Lapse, OnlyAt;
    LapseWithin(w, base, st);
    var st1 := Lapse(w, st);
    if names == [] {
      var st2 := DeletePrefixState(w, st, VariantPrefix(base));
      DeletedWithin(w, base, st, VaryKey(base));
      DeletedWithin(w, base, st2, VaryKey(base));
      WithinTransitive(base, st, st2, DeleteState(w, st2, VaryKey(base)));
      PutWithin(w, base, DeleteState(w, st2, VaryKey(base)), entry);
      WithinTransitive(base, st, DeleteState(w, st2, VaryKey(base)), StoreResponseState(w, st, base, entry, names));
    } else {
      var existing := VaryAt(st1, VaryKey(base));
      var st2 := if existing.Some? && existing.value != names then DeletePrefixState(w, st1, VariantPrefix(base))
          else st1;
      DeletedWithin(w, base, st1, ResponseKey(base));
      FilesWithin(base, st1, st1);
      DeletedWithin(w, base, st2, ResponseKey(base));
      var st3 := DeleteState(w, st2, ResponseKey(base));
      NamesWithin(base, st3, names);
      var st4 := PutVaryState(st3, VaryKey(base), names);
      PutWithin(w, base, st4, entry);
      WithinTransitive(base, st, st1, st2);
      WithinTransitive(base, st, st2, st3);
      WithinTransitive(base, st, st3, st4);
      WithinTransitive(base, st, st4, StoreResponseState(w, st, base, entry, names));
    }
  }

  lemma NamesWithin(base: string, st: StoreState, names: seq<string>)
    ensures StaysWithin(base, st, PutVaryState(st, VaryKey(base), names))
  {
  }

  lemma PutWithin(w: World, base: string, st: StoreState, entry: Entry)
    requires IsObjectKey(base, entry.key)
    ensures StaysWithin(base, st, PutEntryState(w, st, entry.key, entry))
  {
    hide PutWithBody, StaysWithin;
    PutShape(w, st, entry.key, EntryRecord(entry), entry.windows.invalidAt, entry.response.bodyPath);
    OnlyAtWithin(base, st, PutEntryState(w, st, entry.key, entry), iset{entry.key});
  }

  // Another URL's key space does not notice.
  lemma WithinKeepsOthers(base: string, other: string, st: StoreState, st': StoreState)
    requires Apart(base, other) && StaysWithin(base, st, st')
    ensures KeepsAt(other, st, st')
  {
    hide IsObjectKey, VaryKey;
    Kinds(base);
    Kinds(other);
    OtherNames(base, other);
    forall k | IsObjectKey(other, k)
      ensures !EngineOwned(base, k)
    {
      ApartBoth(base, other, k);
    }
  }

  lemma OtherNames(base: string, other: string)
    requires base != other
    ensures VaryKey(base) != VaryKey(other)
  {
    assert VaryKey(base)[5..] == base && VaryKey(other)[5..] == other;
  }

  lemma ApartBoth(base: string, other: string, key: string)
    requires Apart(base, other) && IsObjectKey(other, key)
    ensures !IsObjectKey(base, key)
  {
    ApartKeys(other, base, key);
  }

  // Storing a response of one URL is foreign to every other URL apart from it.
  lemma StoreIsForeign(w: World, digest: string -> string, st: StoreState, base: string, entry: Entry,
                       names: seq<string>, h: Header, other: string)
    requires Apart(base, other) && entry.key == StorageKey(digest, base, names, h)
    ensures KeepsAt(other, st, StoreResponseState(w, st, base, entry, names))
  {
    hide StoreResponseState, StorageKey, IsObjectKey, StaysWithin, KeepsAt;
    KeysAreObjectKeys(digest, base, names, h, None);
    PlainStorage(digest, base, names, h);
    StoreWithin(w, st, base, entry, names);
    WithinKeepsOthers(base, other, st, StoreResponseState(w, st, base, entry, names));
  }
}
