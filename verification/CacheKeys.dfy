/** Storage keys: the base key of a URL, and the Vary-indexed keys derived from it
    (section 4.1 of RFC 9111). */
module CacheKeys {
  import opened Text
  import opened Headers

  function BaseKey(siteId: string, path: string, rawQuery: string): string {
    siteId + "|GET|" + path + (if rawQuery != "" then "?" + rawQuery else "")
  }

  function ResponseKey(base: string): string {
    "resp|" + base
  }

  function VaryKey(base: string): string {
    "vary|" + base
  }

  function VariantPrefix(base: string): string {
    ResponseKey(base) + "|vary|"
  }

  function RangeObjectKey(storageKey: string): string {
    "rmeta|" + storageKey
  }

  function RangeChunkPrefix(storageKey: string): string {
    "rchunk|" + storageKey + "|"
  }

  function RangeChunkKey(storageKey: string, index: nat): string {
    RangeChunkPrefix(storageKey) + PadInt(index, 20)
  }

  function RangeVaryKey(base: string): string {
    "rvary|" + base
  }

  predicate LexLess(a: string, b: string) {
    b != "" && (a == "" || a[0] < b[0] || (a[0] == b[0] && LexLess(a[1..], b[1..])))
  }

  function Insert(x: string, sorted: seq<string>): (r: seq<string>)
    ensures multiset(r) == multiset(sorted) + multiset{x}
  {
    if sorted == [] || !LexLess(sorted[0], x) then [x] + sorted
    else
      assert sorted == [sorted[0]] + sorted[1..];
      [sorted[0]] + Insert(x, sorted[1..])
  }

  function Sort(names: seq<string>): (r: seq<string>)
    ensures multiset(r) == multiset(names)
  {
    if names == [] then []
    else
      assert names == [names[0]] + names[1..];
      Insert(names[0], Sort(names[1..]))
  }

  function CanonicalNames(names: seq<string>, seen: set<string>): (r: seq<string>)
    ensures forall n :: n in r ==> n != "" && n !in seen
    ensures forall n :: n in names && CanonicalKey(TrimSpace(n)) != "" ==>
              CanonicalKey(TrimSpace(n)) in r || CanonicalKey(TrimSpace(n)) in seen
  {
    if names == [] then []
    else
      var canonical := CanonicalKey(TrimSpace(names[0]));
      if canonical == "" || canonical in seen then CanonicalNames(names[1..], seen)
      else [canonical] + CanonicalNames(names[1..], seen + {canonical})
  }

  function VaryParts(values: seq<string>): seq<string> {
    if values == [] then [] else Split(values[0], ',') + VaryParts(values[1..])
  }

  // The names listed in the Vary fields; none for a response that varies on everything.
  function ParseVary(values: seq<string>): Option<seq<string>> {
    var parts := VaryParts(values);
    if exists i :: 0 <= i < |parts| && CanonicalKey(TrimSpace(parts[i])) == "*" then None
    else Some(Sort(CanonicalNames(parts, {})))
  }

  predicate HasOrigin(requestHeader: Header) {
    |Values(requestHeader, "Origin")| > 0
  }

  predicate ManagedVaryOnOrigin(requestHeader: Header, responseHeader: Option<Header>) {
    HasOrigin(requestHeader) ||
    (responseHeader.Some? && TrimSpace(Get(responseHeader.value, "Access-Control-Allow-Origin")) != "")
  }

  function EffectiveVary(requestHeader: Header, responseHeader: Option<Header>, names: seq<string>): seq<string> {
    var headers := names + (if ManagedVaryOnOrigin(requestHeader, responseHeader) then ["Origin"] else []);
    Sort(CanonicalNames(headers, {}))
  }

  function NonBlank(values: seq<string>): seq<string> {
    if values == [] then []
    else
      var v := TrimSpace(values[0]);
      (if v == "" then [] else [v]) + NonBlank(values[1..])
  }

  function LowerAll(values: seq<string>): seq<string> {
    if values == [] then [] else [Lower(values[0])] + LowerAll(values[1..])
  }

  function Normalize(name: string, values: seq<string>): string {
    if CanonicalKey(name) == "Accept-Encoding" || CanonicalKey(name) == "Accept-Language"
    then Join(LowerAll(NonBlank(VaryParts(values))), ",")
    else Join(NonBlank(values), ",")
  }

  function FingerprintParts(names: seq<string>, requestHeader: Header): (r: seq<string>)
    ensures |r| == |names|
    ensures forall i :: 0 <= i < |r| ==>
              r[i] == names[i] + "=" + Normalize(names[i], Values(requestHeader, CanonicalKey(names[i])))
  {
    if names == [] then []
    else
      [names[0] + "=" + Normalize(names[0], Values(requestHeader, CanonicalKey(names[0])))] +
      FingerprintParts(names[1..], requestHeader)
  }

  function Fingerprint(names: seq<string>, requestHeader: Header): string {
    Join(FingerprintParts(names, requestHeader), "\n")
  }

  function VariantKey(digest: string -> string, base: string, names: seq<string>, requestHeader: Header): string {
    VariantPrefix(base) + digest(Fingerprint(names, requestHeader))
  }

  function StorageKey(digest: string -> string, base: string, names: seq<string>, requestHeader: Header): string {
    if names == [] then ResponseKey(base) else VariantKey(digest, base, names, requestHeader)
  }

  // Where a lookup goes, given the stored Vary names of the URL if there are any.
  function LookupKey(digest: string -> string, base: string, requestHeader: Header, spec: Option<seq<string>>): string {
    if spec.Some? && spec.value != [] then VariantKey(digest, base, spec.value, requestHeader)
    else
      var managed := EffectiveVary(requestHeader, None, []);
      if managed != [] then VariantKey(digest, base, managed, requestHeader) else ResponseKey(base)
  }

  lemma OriginIsCanonical()
    ensures CanonicalKey(TrimSpace("Origin")) == "Origin"
  {
    hide TrimSpace, Capitalized;
    OriginIsTrimmed();
    OriginIsCapitalized();
    assert forall c :: c in "Origin" ==> IsTokenChar(c);
  }

  lemma OriginIsTrimmed()
    ensures TrimSpace("Origin") == "Origin"
  {
    assert !IsSpace("Origin"[0]) && !IsSpace("Origin"[5]);
  }

  lemma OriginIsCapitalized()
    ensures Capitalized("Origin", true) == "Origin"
  {
    assert "Origin"[1..] == "rigin" && "rigin"[1..] == "igin" && "igin"[1..] == "gin" && "gin"[1..] == "in" &&
           "in"[1..] == "n" && "n"[1..] == "";
    assert Capitalized("n", false) == "n";
    assert Capitalized("in", false) == "in";
    assert Capitalized("gin", false) == "gin";
    assert Capitalized("igin", false) == "igin";
    assert Capitalized("rigin", false) == "rigin";
  }

  // The empty list of names is only ever effective for a request without Origin
  // that the response does not vary for.
  lemma EffectiveVaryEmpty(requestHeader: Header, responseHeader: Option<Header>, names: seq<string>)
    ensures ManagedVaryOnOrigin(requestHeader, responseHeader) ==>
              "Origin" in EffectiveVary(requestHeader, responseHeader, names)
    ensures names == [] && !ManagedVaryOnOrigin(requestHeader, responseHeader) ==>
              EffectiveVary(requestHeader, responseHeader, names) == []
  {
    if ManagedVaryOnOrigin(requestHeader, responseHeader) {
      OriginIsCanonical();
      var headers := names + ["Origin"];
      assert "Origin" in headers;
      var r := EffectiveVary(requestHeader, responseHeader, names);
      assert "Origin" in CanonicalNames(headers, {});
      assert "Origin" in multiset(r);
    }
  }

  lemma {:induction false} CapitalizedTwice(s: string, upper: bool)
    requires forall i :: 0 <= i < |s| ==> IsTokenChar(s[i])
    ensures |Capitalized(s, upper)| == |s| && Capitalized(Capitalized(s, upper), upper) == Capitalized(s, upper)
    ensures forall i :: 0 <= i < |s| ==> IsTokenChar(Capitalized(s, upper)[i])
  {
    if s != "" {
      CapitalizedTwice(s[1..], s[0] == '-');
      var c := if upper then ToUpper(s[0]) else ToLower(s[0]);
      assert (c == '-') == (s[0] == '-') && Capitalized(s, upper) == [c] + Capitalized(s[1..], s[0] == '-');
      assert ([c] + Capitalized(s[1..], s[0] == '-'))[1..] == Capitalized(s[1..], s[0] == '-');
    }
  }

  lemma TokenHasNoSpace(c: char)
    ensures IsTokenChar(c) ==> !IsSpace(c)
  {
  }

  lemma TokensAreTrimmed(s: string)
    requires forall i :: 0 <= i < |s| ==> IsTokenChar(s[i])
    ensures TrimSpace(s) == s
  {
    hide IsTokenChar, IsSpace;
    forall i | 0 <= i < |s|
      ensures !IsSpace(s[i])
    {
      TokenHasNoSpace(s[i]);
    }
    TrimNoSpaces(s);
  }

  lemma CanonicalTwice(s: string)
    ensures CanonicalKey(TrimSpace(CanonicalKey(TrimSpace(s)))) == CanonicalKey(TrimSpace(s))
  {
    hide TrimSpace, IsTokenChar, Capitalized;
    var name := TrimSpace(s);
    TrimTwice(s);
    if forall i :: 0 <= i < |name| ==> IsTokenChar(name[i]) {
      CapitalizedTwice(name, true);
      TokensAreTrimmed(CanonicalKey(name));
    }
  }

  predicate IsCanonical(name: string) {
    name != "" && CanonicalKey(TrimSpace(name)) == name
  }

  // Names as they are recorded: canonical, and in strictly increasing order.
  ghost predicate AreNames(names: seq<string>) {
    (forall i :: 0 <= i < |names| ==> IsCanonical(names[i])) && Increasing(names)
  }

  ghost predicate Increasing(names: seq<string>) {
    forall i, j :: 0 <= i < j < |names| ==> LexLess(names[i], names[j])
  }

  lemma {:induction false} LexTotal(a: string, b: string)
    ensures !(LexLess(a, b) && LexLess(b, a)) && (a == b ==> !LexLess(a, b)) &&
            (a != b ==> LexLess(a, b) || LexLess(b, a))
  {
    if a != "" && b != "" && a[0] == b[0] {
      LexTotal(a[1..], b[1..]);
      assert a == [a[0]] + a[1..] && b == [b[0]] + b[1..];
    }
  }

  lemma {:induction false} LexTransitive(a: string, b: string, c: string)
    requires LexLess(a, b) && LexLess(b, c)
    ensures LexLess(a, c)
  {
    if a != "" && b != "" && c != "" && a[0] == b[0] && b[0] == c[0] { LexTransitive(a[1..], b[1..], c[1..]); }
  }

  lemma {:induction false} InsertIncreasing(x: string, sorted: seq<string>)
    requires Increasing(sorted) && x !in sorted
    ensures Increasing(Insert(x, sorted))
  {
    if sorted != [] {
      var first, rest := sorted[0], sorted[1..];
      LexTotal(first, x);
      if LexLess(first, x) {
        InsertIncreasing(x, rest);
        assert forall i :: 0 <= i < |Insert(x, rest)| ==> LexLess(first, Insert(x, rest)[i]) by {
          FirstIsLeast(first, x, rest);
        }
      } else {
        forall i | 0 <= i < |sorted|
          ensures LexLess(x, sorted[i])
        {
          if i > 0 { LexTransitive(x, first, sorted[i]); }
        }
      }
    }
  }

  lemma FirstIsLeast(first: string, x: string, rest: seq<string>)
    requires Increasing([first] + rest) && LexLess(first, x)
    ensures forall i :: 0 <= i < |Insert(x, rest)| ==> LexLess(first, Insert(x, rest)[i])
  {
    forall i | 0 <= i < |Insert(x, rest)|
      ensures LexLess(first, Insert(x, rest)[i])
    {
      var y := Insert(x, rest)[i];
      assert y in multiset(Insert(x, rest));
      if y != x {
        var k :| 0 <= k < |rest| && rest[k] == y;
        assert ([first] + rest)[0] == first && ([first] + rest)[k + 1] == y;
      }
    }
  }

  ghost predicate AllDistinct(names: seq<string>) {
    forall i, j :: 0 <= i < j < |names| ==> names[i] != names[j]
  }

  lemma {:induction false} SortIncreasing(names: seq<string>)
    requires AllDistinct(names)
    ensures Increasing(Sort(names)) && forall n :: n in Sort(names) <==> n in names
  {
    assert forall n :: n in Sort(names) <==> n in multiset(Sort(names));
    if names != [] {
      SortIncreasing(names[1..]);
      assert forall i :: 0 <= i < |names[1..]| ==> names[1..][i] == names[i + 1];
      assert names[0] !in names[1..];
      InsertIncreasing(names[0], Sort(names[1..]));
    }
  }

  lemma {:induction false} SortFixed(names: seq<string>)
    requires Increasing(names)
    ensures Sort(names) == names
  {
    if names != [] {
      SortFixed(names[1..]);
      if |names| > 1 { LexTotal(names[0], names[1]); }
    }
  }

  lemma {:induction false} CanonicalDistinct(names: seq<string>, seen: set<string>)
    ensures AllDistinct(CanonicalNames(names, seen)) &&
            forall n :: n in CanonicalNames(names, seen) ==> IsCanonical(n)
  {
    if names != [] {
      var canonical := CanonicalKey(TrimSpace(names[0]));
      CanonicalTwice(names[0]);
      CanonicalDistinct(names[1..], seen);
      CanonicalDistinct(names[1..], seen + {canonical});
    }
  }

  // What a Vary field lists is recorded in that form.
  lemma ParsedAreNames(values: seq<string>)
    requires ParseVary(values).Some?
    ensures AreNames(ParseVary(values).value)
  {
    var names := CanonicalNames(VaryParts(values), {});
    CanonicalDistinct(VaryParts(values), {});
    SortIncreasing(names);
    forall i | 0 <= i < |Sort(names)|
      ensures IsCanonical(Sort(names)[i])
    {
      assert Sort(names)[i] in Sort(names);
    }
  }

  // Canonical names that have not been seen stay, in front of what is left of the others.
  lemma {:induction false} CanonicalFixed(names: seq<string>, rest: seq<string>, seen: set<string>)
    requires AllDistinct(names) && forall i :: 0 <= i < |names| ==> IsCanonical(names[i]) && names[i] !in seen
    ensures CanonicalNames(names + rest, seen) == names + CanonicalNames(rest, seen + Elements(names))
  {
    hide CanonicalKey, TrimSpace, CanonicalNames, IsCanonical;
    if names == [] {
      assert names + rest == rest && seen + Elements(names) == seen;
    } else {
      var first, others := names[0], names[1..];
      assert forall i :: 0 <= i < |others| ==> others[i] == names[i + 1];
      CanonicalFixed(others, rest, seen + {first});
      NextCanonical(first, others + rest, seen);
      assert [first] + (others + rest) == names + rest;
      assert seen + {first} + Elements(others) == seen + Elements(names) by {
        assert names == [first] + others;
      }
      assert [first] + (others + CanonicalNames(rest, seen + Elements(names))) ==
             names + CanonicalNames(rest, seen + Elements(names));
    }
  }

  function Elements(names: seq<string>): set<string> {
    set n | n in names
  }

  lemma NextCanonical(name: string, rest: seq<string>, seen: set<string>)
    requires IsCanonical(name) && name !in seen
    ensures CanonicalNames([name] + rest, seen) == [name] + CanonicalNames(rest, seen + {name})
  {
    hide CanonicalKey, TrimSpace;
    assert ([name] + rest)[1..] == rest;
  }

  lemma IncreasingDistinct(names: seq<string>)
    requires Increasing(names)
    ensures AllDistinct(names)
  {
    forall i, j | 0 <= i < j < |names|
      ensures names[i] != names[j]
    {
      LexTotal(names[i], names[j]);
    }
  }

  // Recorded names are the effective ones exactly if there is no reason to add Origin, or
  // it is among them.
  lemma EffectiveVaryKeepsIff(requestHeader: Header, responseHeader: Option<Header>, names: seq<string>)
    requires AreNames(names)
    ensures EffectiveVary(requestHeader, responseHeader, names) == names <==>
            !ManagedVaryOnOrigin(requestHeader, responseHeader) || "Origin" in names
  {
    hide CanonicalNames, Sort, CanonicalKey, TrimSpace, ManagedVaryOnOrigin;
    IncreasingDistinct(names);
    SortFixed(names);
    CanonicalFixed(names, [], {});
    CanonicalFixed(names, ["Origin"], {});
    assert names + [] == names;
    NothingCanonical({} + Elements(names));
    if ManagedVaryOnOrigin(requestHeader, responseHeader) && "Origin" !in names {
      EffectiveVaryEmpty(requestHeader, responseHeader, names);
    }
  }

  lemma NothingCanonical(seen: set<string>)
    ensures CanonicalNames([], seen) == []
    ensures "Origin" in seen ==> CanonicalNames(["Origin"], seen) == []
  {
    OriginIsCanonical();
    assert ["Origin"][1..] == [];
  }

  // A fill under the URL's stored names, or under no names when none are stored,
  // writes where the lookup for the same request reads.
  lemma FillMeetsLookup(digest: string -> string, base: string, requestHeader: Header, responseHeader: Option<Header>,
                        names: seq<string>, spec: Option<seq<string>>)
    requires var effective := EffectiveVary(requestHeader, responseHeader, names);
             (spec.Some? && spec.value == effective) || (spec.None? && effective == [])
    ensures StorageKey(digest, base, EffectiveVary(requestHeader, responseHeader, names), requestHeader)
            == LookupKey(digest, base, requestHeader, spec)
  {
    EffectiveVaryEmpty(requestHeader, responseHeader, names);
    EffectiveVaryEmpty(requestHeader, None, []);
  }

  ghost predicate Injective(f: string -> string) {
    forall a, b :: f(a) == f(b) ==> a == b
  }

  // No field value on the wire contains a line feed.
  ghost predicate OnOneLine(h: Header) {
    forall name, i :: name in h && 0 <= i < |h[name]| ==> '\n' !in h[name][i]
  }

  ghost predicate PlainNames(names: seq<string>) {
    forall i :: 0 <= i < |names| ==> '\n' !in names[i]
  }

  lemma {:induction false} TrimKeepsOut(s: string, c: char)
    requires c !in s
    ensures c !in TrimSpace(s)
  {
    TrimLeftKeepsOut(s, c);
    TrimRightKeepsOut(TrimLeft(s), c);
  }

  lemma TrimLeftKeepsOut(s: string, c: char)
    requires c !in s
    ensures c !in TrimLeft(s)
  {
  }

  lemma TrimRightKeepsOut(s: string, c: char)
    requires c !in s
    ensures c !in TrimRight(s)
  {
  }

  ghost predicate NoneHas(values: seq<string>, c: char) {
    forall i :: 0 <= i < |values| ==> c !in values[i]
  }

  lemma {:induction false} SplitKeepsOut(s: string, separator: char, c: char)
    requires c !in s
    ensures NoneHas(Split(s, separator), c)
    decreases |s|
  {
    var i := Find(s, separator);
    if i < |s| { SplitKeepsOut(s[i + 1..], separator, c); }
  }

  lemma {:induction false} PartsKeepOut(values: seq<string>, c: char)
    requires NoneHas(values, c)
    ensures NoneHas(VaryParts(values), c)
  {
    if values != [] {
      SplitKeepsOut(values[0], ',', c);
      PartsKeepOut(values[1..], c);
    }
  }

  lemma {:induction false} NonBlankKeepsOut(values: seq<string>, c: char)
    requires NoneHas(values, c)
    ensures NoneHas(NonBlank(values), c)
  {
    if values != [] {
      TrimKeepsOut(values[0], c);
      NonBlankKeepsOut(values[1..], c);
    }
  }

  lemma LowerNoNewline(s: string)
    requires '\n' !in s
    ensures '\n' !in Lower(s)
  {
  }

  lemma {:induction false} LowerAllNoNewline(values: seq<string>)
    requires NoneHas(values, '\n')
    ensures NoneHas(LowerAll(values), '\n')
  {
    if values != [] {
      LowerNoNewline(values[0]);
      LowerAllNoNewline(values[1..]);
    }
  }

  lemma {:induction false} JoinNoNewline(values: seq<string>)
    requires NoneHas(values, '\n')
    ensures '\n' !in Join(values, ",")
  {
    if |values| > 1 { JoinNoNewline(values[1..]); }
  }

  lemma NormalizeNoNewline(name: string, values: seq<string>)
    requires NoneHas(values, '\n')
    ensures '\n' !in Normalize(name, values)
  {
    PartsKeepOut(values, '\n');
    NonBlankKeepsOut(VaryParts(values), '\n');
    LowerAllNoNewline(NonBlank(VaryParts(values)));
    JoinNoNewline(LowerAll(NonBlank(VaryParts(values))));
    NonBlankKeepsOut(values, '\n');
    JoinNoNewline(NonBlank(values));
  }

  ghost predicate SameOn(names: seq<string>, h: Header, h': Header) {
    forall i :: 0 <= i < |names| ==>
      Normalize(names[i], Values(h, CanonicalKey(names[i]))) == Normalize(names[i], Values(h', CanonicalKey(names[i])))
  }

  // Two requests share a variant exactly when every listed field normalises equally.
  lemma VariantKeyShared(digest: string -> string, base: string, names: seq<string>, h: Header, h': Header)
    requires Injective(digest) && PlainNames(names) && OnOneLine(h) && OnOneLine(h')
    ensures VariantKey(digest, base, names, h) == VariantKey(digest, base, names, h') <==> SameOn(names, h, h')
  {
    var p, p' := FingerprintParts(names, h), FingerprintParts(names, h');
    forall i | 0 <= i < |names|
      ensures '\n' !in p[i] && '\n' !in p'[i]
    {
      NormalizeNoNewline(names[i], Values(h, CanonicalKey(names[i])));
      NormalizeNoNewline(names[i], Values(h', CanonicalKey(names[i])));
    }
    var key, key' := VariantKey(digest, base, names, h), VariantKey(digest, base, names, h');
    var n := |VariantPrefix(base)|;
    assert key[n..] == digest(Fingerprint(names, h)) && key'[n..] == digest(Fingerprint(names, h'));
    if key == key' {
      assert Fingerprint(names, h) == Fingerprint(names, h');
      JoinInjective(p, p', '\n');
      forall i | 0 <= i < |names|
        ensures Normalize(names[i], Values(h, CanonicalKey(names[i]))) ==
                  Normalize(names[i], Values(h', CanonicalKey(names[i])))
      {
        var k := |names[i] + "="|;
        assert p[i][k..] == Normalize(names[i], Values(h, CanonicalKey(names[i])));
        assert p'[i][k..] == Normalize(names[i], Values(h', CanonicalKey(names[i])));
      }
    }
    if SameOn(names, h, h') {
      assert p == p';
    }
  }

  // A URL's path and query as they are written.
  function Written(path: string, rawQuery: string): string {
    if rawQuery == "" then path else path + "?" + rawQuery
  }

  // Two URLs share a key exactly if they are of one site and written alike.
  lemma KeysCollideIff(site: string, path: string, query: string, site': string, path': string, query': string)
    requires '|' !in site && '|' !in site'
    ensures BaseKey(site, path, query) == BaseKey(site', path', query') <==>
            site == site' && Written(path, query) == Written(path', query')
  {
    hide BaseKey, Written;
    KeyIsCut(site, path, query);
    KeyIsCut(site', path', query');
  }

  lemma KeyIsCut(site: string, path: string, query: string)
    requires '|' !in site
    ensures Cut(BaseKey(site, path, query), '|') == Some((site, "GET|" + Written(path, query)))
    ensures BaseKey(site, path, query) == site + "|" + ("GET|" + Written(path, query))
    ensures ("GET|" + Written(path, query))[4..] == Written(path, query)
  {
    hide Written;
    var rest := "GET|" + Written(path, query);
    KeyIsWritten(site, path, query);
    CutAtFirst(site, '|', rest);
    assert site + ['|'] + rest == site + "|" + rest;
  }

  lemma KeyIsWritten(site: string, path: string, query: string)
    ensures BaseKey(site, path, query) == site + "|" + ("GET|" + Written(path, query))
  {
    assert site + "|GET|" == site + "|" + "GET|";
  }

  // The longer path goes on, after a question mark, with what the query of the shorter
  // one is.
  ghost predicate RunsOn(path: string, query: string, path': string, query': string) {
    query != "" && exists more :: path' == path + "?" + more && query == Written(more, query')
  }

  // Written alike are the same path and query, and no others but a path that has a
  // question mark itself and the one it runs on from.
  lemma WrittenAlikeIff(path: string, query: string, path': string, query': string)
    ensures Written(path, query) == Written(path', query') <==>
            (path == path' && query == query') || RunsOn(path, query, path', query') ||
            RunsOn(path', query', path, query)
  {
    if |path| < |path'| {
      WrittenLonger(path, query, path', query');
    } else if |path'| < |path| {
      WrittenLonger(path', query', path, query);
    } else if Written(path, query) == Written(path', query') {
      var n := |path|;
      assert path == Written(path, query)[..n] == Written(path', query')[..n] == path';
      assert Written(path, query)[n..] == if query == "" then "" else "?" + query;
      assert Written(path', query')[n..] == if query' == "" then "" else "?" + query';
      assert query != "" ==> ("?" + query)[1..] == query;
      assert query' != "" ==> ("?" + query')[1..] == query';
    }
  }

  lemma WrittenLonger(path: string, query: string, path': string, query': string)
    requires |path| < |path'|
    ensures Written(path, query) == Written(path', query') <==> RunsOn(path, query, path', query')
    ensures !RunsOn(path', query', path, query)
  {
    hide Written;
    if Written(path, query) == Written(path', query') { RunsOnIf(path, query, path', query'); }
    if RunsOn(path, query, path', query') {
      var more :| path' == path + "?" + more && query == Written(more, query');
      MovesIn(path, more, query');
    }
  }

  lemma RunsOnIf(path: string, query: string, path': string, query': string)
    requires |path| < |path'| && Written(path, query) == Written(path', query')
    ensures RunsOn(path, query, path', query')
  {
    var all, n := Written(path, query), |path|;
    var more := path'[n + 1..];
    assert query != "" && all == path + "?" + query;
    assert path' == all[..|path'|];
    assert path'[..n] == path && path'[n] == '?';
    assert path' == path + "?" + more;
    MovesIn(path, more, query');
    assert (path + "?" + query)[n + 1..] == query;
    assert (path + "?" + Written(more, query'))[n + 1..] == Written(more, query');
  }

  lemma MovesIn(path: string, more: string, query: string)
    ensures path + "?" + Written(more, query) == Written(path + "?" + more, query)
    ensures Written(path, Written(more, query)) == if Written(more, query) == "" then path
              else path + "?" + Written(more, query)
  {
  }

  // So a key stands for one URL, among those without a bar in the site id or a question
  // mark in the path.
  lemma KeyOfOneUrl(site: string, path: string, query: string, site': string, path': string, query': string)
    requires '|' !in site && '|' !in site' && '?' !in path && '?' !in path'
    ensures BaseKey(site, path, query) == BaseKey(site', path', query') <==>
            site == site' && path == path' && query == query'
  {
    KeysCollideIff(site, path, query, site', path', query');
    WrittenAlikeIff(path, query, path', query');
    RunsOnAtMark(path, query, path', query');
    RunsOnAtMark(path', query', path, query);
  }

  // One site, and written alike; the very same URL if no path has a question mark.
  ghost predicate SameUrl(site: string, path: string, query: string, site': string, path': string, query': string) {
    site == site' && Written(path, query) == Written(path', query') &&
    ('?' !in path && '?' !in path' ==> path == path' && query == query')
  }

  lemma SameUrlIff(site: string, path: string, query: string, site': string, path': string, query': string)
    requires '|' !in site && '|' !in site'
    ensures BaseKey(site, path, query) == BaseKey(site', path', query') <==>
            SameUrl(site, path, query, site', path', query')
  {
    hide BaseKey, Written;
    KeysCollideIff(site, path, query, site', path', query');
    if '?' !in path && '?' !in path' { KeyOfOneUrl(site, path, query, site', path', query'); }
  }

  lemma RunsOnAtMark(path: string, query: string, path': string, query': string)
    ensures RunsOn(path, query, path', query') ==> '?' in path'
  {
    if RunsOn(path, query, path', query') {
      var more :| path' == path + "?" + more && query == Written(more, query');
      assert path'[|path|] == '?';
    }
  }

  // A path with an escaped question mark, decoded, and the path before it with a query.
  lemma KeysThatCollide(site: string)
    ensures BaseKey(site, "/a?x=1", "") == BaseKey(site, "/a", "x=1")
  {
    assert "/a?x=1" == "/a" + "?" + "x=1";
  }

  // What a list of field values is made of: the parts between commas.
  lemma {:induction false} VaryPartsAre(values: seq<string>, part: string)
    ensures part in VaryParts(values) <==> exists i :: 0 <= i < |values| && part in Split(values[i], ',')
  {
    hide Split;
    if values != [] {
      VaryPartsAre(values[1..], part);
      assert forall i :: 1 <= i < |values| ==> values[i] == values[1..][i - 1];
    }
  }

  // One of the values lists the name.
  ghost predicate Lists(values: seq<string>, name: string) {
    exists i, part :: 0 <= i < |values| && part in Split(values[i], ',') && CanonicalKey(TrimSpace(part)) == name
  }

  lemma ListsPart(values: seq<string>, name: string)
    ensures Lists(values, name) <==> exists part :: part in VaryParts(values) && CanonicalKey(TrimSpace(part)) == name
  {
    hide Split, CanonicalKey, TrimSpace, VaryParts;
    forall part
      ensures part in VaryParts(values) <==> exists i :: 0 <= i < |values| && part in Split(values[i], ',')
    {
      VaryPartsAre(values, part);
    }
  }

  lemma {:induction false} CanonicalNamesAre(names: seq<string>, seen: set<string>, name: string)
    ensures name in CanonicalNames(names, seen) <==>
            name != "" && name !in seen && exists n :: n in names && CanonicalKey(TrimSpace(n)) == name
  {
    hide CanonicalKey, TrimSpace;
    if names != [] {
      var canonical := CanonicalKey(TrimSpace(names[0]));
      assert forall n :: n in names <==> n == names[0] || n in names[1..];
      CanonicalNamesAre(names[1..], seen, name);
      CanonicalNamesAre(names[1..], seen + {canonical}, name);
    }
  }

  lemma SortKeeps(names: seq<string>, name: string)
    ensures name in Sort(names) <==> name in names
  {
    assert name in Sort(names) <==> name in multiset(Sort(names));
  }

  // A Vary field gives the names it lists, in canonical form, and none if it lists "*".
  lemma VaryIs(values: seq<string>, name: string)
    ensures ParseVary(values).None? <==> Lists(values, "*")
    ensures ParseVary(values).Some? ==> (name in ParseVary(values).value <==> name != "" && Lists(values, name))
  {
    hide Split, CanonicalKey, TrimSpace, VaryParts, CanonicalNames, Sort, Lists;
    ListsPart(values, "*");
    ListsPart(values, name);
    var parts := VaryParts(values);
    CanonicalNamesAre(parts, {}, name);
    SortKeeps(CanonicalNames(parts, {}), name);
  }

  // The effective names: those listed, and Origin if the request has it or the response
  // allows an origin.
  lemma EffectiveNamesAre(requestHeader: Header, responseHeader: Header, names: seq<string>, name: string)
    ensures name in EffectiveVary(requestHeader, Some(responseHeader), names) <==>
            (name != "" && exists n :: n in names && CanonicalKey(TrimSpace(n)) == name) ||
            (name == "Origin" && (Values(requestHeader, "Origin") != [] ||
                                  TrimSpace(Get(responseHeader, "Access-Control-Allow-Origin")) != ""))
  {
    hide CanonicalKey, TrimSpace, CanonicalNames, Sort;
    OriginIsCanonical();
    var managed := ManagedVaryOnOrigin(requestHeader, Some(responseHeader));
    var headers := names + (if managed then ["Origin"] else []);
    CanonicalNamesAre(headers, {}, name);
    SortKeeps(CanonicalNames(headers, {}), name);
  }

  // Before a response is there, the request alone counts.
  lemma LookupNamesAre(requestHeader: Header)
    ensures EffectiveVary(requestHeader, None, []) == if Values(requestHeader, "Origin") != [] then ["Origin"] else []
  {
    hide CanonicalKey, TrimSpace, Sort;
    OriginIsCanonical();
    var none: seq<string> := [];
    assert none + ["Origin"] == ["Origin"] + none == ["Origin"] && none + none == none;
    NextCanonical("Origin", none, {});
    NothingCanonical({});
    NothingCanonical({} + {"Origin"});
    SortFixed(["Origin"]);
    SortFixed(none);
    assert ManagedVaryOnOrigin(requestHeader, None) <==> Values(requestHeader, "Origin") != [];
  }

  // Where a lookup goes: under the names recorded for the URL, and while none are, under
  // the Origin of a request that has one and to the plain response for any other.
  lemma LookupKeyIs(digest: string -> string, base: string, h: Header, spec: Option<seq<string>>)
    ensures LookupKey(digest, base, h, spec) ==
            if spec.Some? && spec.value != [] then "resp|" + base + "|vary|" + digest(Fingerprint(spec.value, h))
            else if Values(h, "Origin") != [] then "resp|" + base + "|vary|" + digest(Fingerprint(["Origin"], h))
            else "resp|" + base
  {
    hide EffectiveVary, Fingerprint;
    LookupNamesAre(h);
  }

  // The order of names: by the first character in which they differ, the shorter first.
  lemma {:induction false} LexLessIs(common: string, a: string, b: string)
    requires a != "" && b != "" && a[0] != b[0]
    ensures LexLess(common + a, common + b) <==> a[0] < b[0]
    ensures LexLess(common, common + b) && !LexLess(common + b, common)
  {
    if common == "" {
      assert common + a == a && common + b == b;
    } else {
      assert (common + a)[1..] == common[1..] + a && (common + b)[1..] == common[1..] + b;
      LexLessIs(common[1..], a, b);
    }
  }

  // The parts of the values that are not blank, trimmed, one after the other.
  ghost function Trimmed(values: seq<string>): seq<string> {
    if values == [] then []
    else Trimmed(values[..|values| - 1]) +
         if TrimSpace(values[|values| - 1]) == "" then [] else [TrimSpace(values[|values| - 1])]
  }

  lemma {:induction false} NonBlankConcat(a: seq<string>, b: seq<string>)
    ensures NonBlank(a + b) == NonBlank(a) + NonBlank(b)
  {
    hide TrimSpace;
    if a == [] {
      assert a + b == b;
    } else {
      assert (a + b)[0] == a[0] && (a + b)[1..] == a[1..] + b;
      NonBlankConcat(a[1..], b);
    }
  }

  lemma {:induction false} NonBlankIs(values: seq<string>)
    ensures NonBlank(values) == Trimmed(values)
    ensures forall s :: s in NonBlank(values) ==> s != ""
    decreases |values|
  {
    hide TrimSpace;
    if values != [] {
      var n := |values| - 1;
      NonBlankIs(values[..n]);
      assert values == values[..n] + [values[n]];
      NonBlankConcat(values[..n], [values[n]]);
      assert [values[n]][1..] == [];
    }
  }

  lemma {:induction false} LowerAllIs(values: seq<string>)
    ensures |LowerAll(values)| == |values| && forall i :: 0 <= i < |values| ==> LowerAll(values)[i] == Lower(values[i])
  {
    if values != [] { LowerAllIs(values[1..]); }
  }

  // Lists of non-empty parts without commas are joined alike exactly if they are equal.
  lemma JoinedAlikeIff(a: seq<string>, b: seq<string>)
    requires forall s :: s in a + b ==> s != "" && ',' !in s
    ensures Join(a, ",") == Join(b, ",") <==> a == b
  {
    assert forall i :: 0 <= i < |a| ==> a[i] == (a + b)[i];
    assert forall i :: 0 <= i < |b| ==> b[i] == (a + b)[|a| + i];
    if a != [] { JoinSplits(a, ','); }
    if b != [] { JoinSplits(b, ','); }
    if a == [] && b != [] { SplitOne("", ','); }
    if b == [] && a != [] { SplitOne("", ','); }
  }

  // The tokens of field values: what there is between commas, trimmed, if not blank.
  ghost function Tokens(values: seq<string>): seq<string> {
    Trimmed(VaryParts(values))
  }

  lemma {:induction false} TrimmedHasNoCommas(parts: seq<string>)
    requires forall s :: s in parts ==> ',' !in s
    ensures forall s :: s in Trimmed(parts) ==> s != "" && ',' !in s
    decreases |parts|
  {
    if parts != [] {
      var n := |parts| - 1;
      assert forall s :: s in parts[..n] ==> s in parts;
      TrimmedHasNoCommas(parts[..n]);
      TrimKeepsOut(parts[n], ',');
    }
  }

  lemma TokensHaveNoCommas(values: seq<string>)
    ensures forall s :: s in Tokens(values) ==> s != "" && ',' !in s
  {
    forall part | part in VaryParts(values)
      ensures ',' !in part
    {
      VaryPartsAre(values, part);
      var i :| 0 <= i < |values| && part in Split(values[i], ',');
      SplitJoins(values[i], ',');
    }
    TrimmedHasNoCommas(VaryParts(values));
  }

  lemma {:induction false} LowerKeepsOut(s: string)
    ensures (',' in Lower(s) <==> ',' in s) && (Lower(s) == "" <==> s == "")
  {
    if s != "" { LowerKeepsOut(s[1..]); }
  }

  predicate IsTokenList(name: string) {
    CanonicalKey(name) == "Accept-Encoding" || CanonicalKey(name) == "Accept-Language"
  }

  // Values of the two fields that list tokens normalise alike exactly if the tokens are
  // the same but for their case, in order.
  lemma TokensNormalizeIff(name: string, values: seq<string>, values': seq<string>)
    requires IsTokenList(name)
    ensures Normalize(name, values) == Normalize(name, values') <==>
            |Tokens(values)| == |Tokens(values')| &&
            forall i :: 0 <= i < |Tokens(values)| ==> Lower(Tokens(values)[i]) == Lower(Tokens(values')[i])
  {
    hide CanonicalKey, TrimSpace, VaryParts, Lower;
    var a, b := Tokens(values), Tokens(values');
    NonBlankIs(VaryParts(values));
    NonBlankIs(VaryParts(values'));
    TokensHaveNoCommas(values);
    TokensHaveNoCommas(values');
    LowerAllIs(a);
    LowerAllIs(b);
    forall s | s in LowerAll(a) + LowerAll(b)
      ensures s != "" && ',' !in s
    {
      if s in LowerAll(a) {
        var i :| 0 <= i < |a| && s == LowerAll(a)[i];
        LowerKeepsOut(a[i]);
      } else {
        var i :| 0 <= i < |b| && s == LowerAll(b)[i];
        LowerKeepsOut(b[i]);
      }
    }
    JoinedAlikeIff(LowerAll(a), LowerAll(b));
  }

  // Values of any other field without commas normalise alike exactly if they are the same
  // but for blank ones and the space around them; a single value may have commas.
  lemma ValuesNormalizeIff(name: string, values: seq<string>, values': seq<string>)
    requires !IsTokenList(name) && forall s :: s in values + values' ==> ',' !in s
    ensures Normalize(name, values) == Normalize(name, values') <==> Trimmed(values) == Trimmed(values')
  {
    hide CanonicalKey, TrimSpace;
    assert forall s :: s in values ==> s in values + values';
    assert forall s :: s in values' ==> s in values + values';
    NonBlankIs(values);
    NonBlankIs(values');
    TrimmedHasNoCommas(values);
    TrimmedHasNoCommas(values');
    JoinedAlikeIff(Trimmed(values), Trimmed(values'));
  }

  lemma ValueNormalizesIff(name: string, value: string, value': string)
    requires !IsTokenList(name)
    ensures Normalize(name, [value]) == Normalize(name, [value']) <==> TrimSpace(value) == TrimSpace(value')
    ensures Normalize(name, []) == "" && Normalize(name, [value]) == TrimSpace(value)
  {
    hide CanonicalKey, TrimSpace;
    assert NormalizedValue(name, value) && NormalizedValue(name, value') by {
      ValueNormalizes(name, value);
      ValueNormalizes(name, value');
    }
  }

  ghost predicate NormalizedValue(name: string, value: string) {
    Normalize(name, [value]) == TrimSpace(value)
  }

  lemma ValueNormalizes(name: string, value: string)
    requires !IsTokenList(name)
    ensures NormalizedValue(name, value)
  {
    hide CanonicalKey, TrimSpace;
    assert [value][1..] == [];
    assert NonBlank([value]) == if TrimSpace(value) == "" then [] else [TrimSpace(value)];
  }

  // The tokens of a list that is written with commas, with or without a space after each.
  lemma TokensOfList(tokens: seq<string>)
    requires tokens != [] && forall s :: s in tokens ==> s != "" && ',' !in s && BareEnds(s)
    ensures Tokens([Join(tokens, ",")]) == tokens && Tokens([Join(tokens, ", ")]) == tokens
  {
    hide TrimSpace, Split;
    JoinSplits(tokens, ',');
    TrimmedTokens(tokens, "");
    var spaced := Spaced(tokens);
    SpacedJoins(tokens);
    JoinSplits(spaced, ',');
    TrimmedTokens(tokens, " ");
    PartsOfOne(Join(tokens, ","));
    PartsOfOne(Join(tokens, ", "));
  }

  lemma PartsOfOne(value: string)
    ensures VaryParts([value]) == Split(value, ',')
  {
    assert [value][1..] == [];
    assert Split(value, ',') + [] == Split(value, ',');
  }

  ghost function Spaced(tokens: seq<string>): seq<string>
    requires tokens != []
  {
    Led(tokens, " ")
  }

  // All but the first with something in front.
  ghost function Led(tokens: seq<string>, lead: string): (r: seq<string>)
    ensures |r| == |tokens|
  {
    seq(|tokens|, i requires 0 <= i < |tokens| => if i == 0 then tokens[i] else lead + tokens[i])
  }

  lemma {:induction false} SpacedJoins(tokens: seq<string>)
    requires tokens != [] && forall s :: s in tokens ==> ',' !in s
    ensures Join(Spaced(tokens), ",") == Join(tokens, ", ")
    ensures forall i :: 0 <= i < |tokens| ==> ',' !in Spaced(tokens)[i]
  {
    if |tokens| > 1 {
      var rest := tokens[1..];
      assert forall s :: s in rest ==> s in tokens;
      SpacedJoins(rest);
      var led := Spaced(tokens);
      assert led[1..] == [" " + Spaced(rest)[0]] + Spaced(rest)[1..];
      LeadMoves(" ", Spaced(rest));
      assert tokens[0] + "," + (" " + Join(rest, ", ")) == tokens[0] + ", " + Join(rest, ", ");
    }
  }

  lemma LeadMoves(lead: string, parts: seq<string>)
    requires parts != []
    ensures Join([lead + parts[0]] + parts[1..], ",") == lead + Join(parts, ",")
  {
    var led := [lead + parts[0]] + parts[1..];
    assert led[1..] == parts[1..];
    if |parts| > 1 {
      assert (lead + parts[0]) + "," + Join(parts[1..], ",") == lead + (parts[0] + "," + Join(parts[1..], ","));
    }
  }

  lemma {:induction false} TrimmedTokens(tokens: seq<string>, lead: string)
    requires tokens != [] && lead in {"", " "} && forall s :: s in tokens ==> s != "" && BareEnds(s)
    ensures Trimmed(Led(tokens, lead)) == tokens && Led(tokens, "") == tokens
    decreases |tokens|
  {
    hide TrimSpace, BareEnds, Led, Trimmed;
    NoLead(tokens);
    var n, led := |tokens| - 1, Led(tokens, lead);
    assert tokens[n] in tokens;
    LeadTrims(lead, tokens[n]);
    LastLed(tokens, lead);
    if n == 0 {
      TrimmedLast([], led[0]);
      assert led == [] + [led[0]] && tokens == [] + [tokens[0]];
    } else {
      assert forall s :: s in tokens[..n] ==> s in tokens;
      TrimmedTokens(tokens[..n], lead);
      TrimmedLast(led[..n], led[n]);
      assert led == led[..n] + [led[n]] && tokens == tokens[..n] + [tokens[n]];
    }
  }

  lemma NoLead(tokens: seq<string>)
    ensures Led(tokens, "") == tokens
  {
    assert forall i :: 0 <= i < |tokens| ==> "" + tokens[i] == tokens[i];
  }

  lemma LeadTrims(lead: string, s: string)
    requires lead in {"", " "} && BareEnds(s)
    ensures TrimSpace(lead + s) == s && TrimSpace(s) == s
  {
    hide TrimSpace;
    TrimSpaceIs(lead, s, "");
    TrimSpaceIs("", s, "");
    assert lead + s + "" == lead + s && "" + s + "" == s;
  }

  lemma LastLed(tokens: seq<string>, lead: string)
    requires tokens != []
    ensures var n, led := |tokens| - 1, Led(tokens, lead);
            led[..n] == Led(tokens[..n], lead) && led[n] == if n == 0 then tokens[0] else lead + tokens[n]
  {
  }

  lemma TrimmedLast(values: seq<string>, value: string)
    ensures Trimmed(values + [value]) == Trimmed(values) + if TrimSpace(value) == "" then [] else [TrimSpace(value)]
    ensures Trimmed([]) == []
  {
    hide TrimSpace;
    assert (values + [value])[..|values|] == values;
  }

  // Two such lists normalise alike, however they are spaced, exactly if they agree token
  // by token up to case.
  lemma ListsNormalizeIff(name: string, a: seq<string>, b: seq<string>)
    requires IsTokenList(name) && a != [] && b != []
    requires forall s :: s in a + b ==> s != "" && ',' !in s && BareEnds(s)
    ensures Normalize(name, [Join(a, ", ")]) == Normalize(name, [Join(b, ",")]) <==>
            |a| == |b| && forall i :: 0 <= i < |a| ==> Lower(a[i]) == Lower(b[i])
  {
    hide CanonicalKey, Normalize, Tokens, IsTokenList, Lower;
    assert forall s :: s in a ==> s in a + b;
    assert forall s :: s in b ==> s in a + b;
    TokensOfList(a);
    TokensOfList(b);
    TokensNormalizeIff(name, [Join(a, ", ")], [Join(b, ",")]);
  }
}
