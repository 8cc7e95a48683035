/** HTTP header fields, keyed by canonical name. */
module Headers {
  import opened Text

  type Header = map<string, seq<string>>

  function Values(h: Header, name: string): seq<string> {
    if name in h then h[name] else []
  }

  function Get(h: Header, name: string): string {
    if name in h && h[name] != [] then h[name][0] else ""
  }

  predicate IsTokenChar(c: char) {
    'a' <= c <= 'z' || 'A' <= c <= 'Z' || IsDigit(c) || c in "!#$%&'*+-.^_`|~"
  }

  function ToUpper(c: char): char {
    if 'a' <= c <= 'z' then 'A' + (c - 'a') else c
  }

  function ToLower(c: char): char {
    if 'A' <= c <= 'Z' then 'a' + (c - 'A') else c
  }

  function Lower(s: string): string {
    if s == "" then "" else [ToLower(s[0])] + Lower(s[1..])
  }

  function Capitalized(s: string, upper: bool): string {
    if s == "" then ""
    else [if upper then ToUpper(s[0]) else ToLower(s[0])] + Capitalized(s[1..], s[0] == '-')
  }

  // A name with a character outside the token alphabet is left as it is.
  function CanonicalKey(s: string): string {
    if forall i :: 0 <= i < |s| ==> IsTokenChar(s[i]) then Capitalized(s, true) else s
  }

  const HOP_BY_HOP: set<string> :=
    {"Connection", "Keep-Alive", "Proxy-Authenticate", "Proxy-Authorization", "Te", "Trailer", "Transfer-Encoding",
     "Upgrade"}

  function ConnectionTokens(values: seq<string>): seq<string> {
    if values == [] then [] else Split(values[0], ',') + ConnectionTokens(values[1..])
  }

  function StripHopByHop(h: Header): Header {
    var tokens := ConnectionTokens(Values(h, "Connection"));
    h - HOP_BY_HOP - (set t | t in tokens :: CanonicalKey(TrimSpace(t)))
  }

  function SanitizeStored(h: Header): Header {
    StripHopByHop(h) - {"Content-Length"}
  }

  function SanitizeChunk(h: Header): Header {
    SanitizeStored(h) - {"Content-Range"}
  }

  // The stored fields, each replaced by the field of the 304 response if that has one.
  function MergeRevalidated(stored: Header, revalidated: Header): Header {
    var updates := SanitizeStored(revalidated);
    (SanitizeStored(stored) - updates.Keys) + (map k | k in updates && updates[k] != [] :: updates[k])
  }

  predicate HasValidators(h: Header) {
    Get(h, "Etag") != "" || Get(h, "Last-Modified") != ""
  }

  // What identifies a version of a resource.
  datatype Validators = Validators(etag: string, lastModified: string)

  function ValidatorsOf(h: Header): Validators {
    Validators(TrimSpace(Get(h, "Etag")), TrimSpace(Get(h, "Last-Modified")))
  }

  function CombinedValue(h: Header, name: string): string {
    Join(Values(h, name), ",")
  }

  function ParseAge(value: string): nat {
    match ParseInt64(TrimSpace(value))
    case Some(age) => if age < 0 then 0 else age
    case None => 0
  }

  // A field has all its values, and its first one alone where one is looked for.
  lemma FieldsAre(h: Header, name: string, first: string, more: seq<string>)
    ensures Values(h[name := [first] + more], name) == [first] + more && Get(h[name := [first] + more], name) == first
    ensures Values(h[name := []], name) == [] && Get(h[name := []], name) == ""
    ensures name !in h ==> Values(h, name) == [] && Get(h, name) == ""
  {
  }

  // The characters of a token: what is visible and no delimiter (section 5.6.2 of RFC 9110).
  lemma TokensAre(c: char)
    ensures IsTokenChar(c) <==> '!' <= c <= '~' && c !in "\"(),/:;<=>?@[\\]{}"
  {
  }

  lemma {:induction false} LowerIs(s: string)
    ensures |Lower(s)| == |s| && forall i :: 0 <= i < |s| ==> Lower(s)[i] == ToLower(s[i])
  {
    if s != "" { LowerIs(s[1..]); }
  }

  // The two cases of each of the 26 letters, and every other character its own.
  lemma CasesAre(i: nat)
    requires i < 26
    ensures var upper, lower := "ABCDEFGHIJKLMNOPQRSTUVWXYZ"[i], "abcdefghijklmnopqrstuvwxyz"[i];
            ToLower(upper) == lower && ToUpper(lower) == upper && ToLower(lower) == lower && ToUpper(upper) == upper
  {
    assert "ABCDEFGHIJKLMNOPQRSTUVWXYZ"[i] == 'A' + i as char by { assert i < 26; }
    assert "abcdefghijklmnopqrstuvwxyz"[i] == 'a' + i as char by { assert i < 26; }
  }

  lemma OtherCharacters(c: char)
    ensures !('A' <= c <= 'Z') && !('a' <= c <= 'z') ==> ToLower(c) == c && ToUpper(c) == c
    ensures ToLower(c) == '-' <==> c == '-'
  {
  }

  lemma SameLetter(c: char, d: char)
    ensures ToLower(c) == ToLower(d) ==> ToUpper(c) == ToUpper(d) && (c == '-' <==> d == '-')
  {
  }

  // In canonical form the first letter and those after a hyphen are upper case, the
  // others lower case.
  lemma {:induction false} CapitalizedIs(s: string, upper: bool)
    ensures |Capitalized(s, upper)| == |s|
    ensures forall i :: 0 <= i < |s| ==>
              Capitalized(s, upper)[i] == if (if i == 0 then upper else s[i - 1] == '-') then ToUpper(s[i])
                else ToLower(s[i])
  {
    if s != "" { CapitalizedIs(s[1..], s[0] == '-'); }
  }

  // Field names are the same in canonical form exactly if they differ in case at most.
  lemma CanonicalIff(a: string, b: string)
    requires (forall c :: c in a ==> IsTokenChar(c)) && forall c :: c in b ==> IsTokenChar(c)
    ensures CanonicalKey(a) == CanonicalKey(b) <==> Lower(a) == Lower(b)
  {
    hide IsTokenChar, Lower, Capitalized;
    assert CanonicalKey(a) == Capitalized(a, true) && CanonicalKey(b) == Capitalized(b, true) by {
      assert forall i :: 0 <= i < |a| ==> a[i] in a;
      assert forall i :: 0 <= i < |b| ==> b[i] in b;
    }
    LowerOfCapitalized(a, true);
    LowerOfCapitalized(b, true);
    if Lower(a) == Lower(b) { CapitalizedSame(a, b, true); }
  }

  lemma {:induction false} CapitalizedSame(a: string, b: string, upper: bool)
    requires Lower(a) == Lower(b)
    ensures Capitalized(a, upper) == Capitalized(b, upper)
  {
    if a != "" && b != "" {
      assert Lower(a)[0] == ToLower(a[0]) && Lower(b)[0] == ToLower(b[0]);
      assert Lower(a)[1..] == Lower(a[1..]) && Lower(b)[1..] == Lower(b[1..]);
      SameLetter(a[0], b[0]);
      CapitalizedSame(a[1..], b[1..], a[0] == '-');
    }
  }

  lemma {:induction false} LowerOfCapitalized(s: string, upper: bool)
    ensures Lower(Capitalized(s, upper)) == Lower(s)
  {
    if s != "" {
      LowerOfCapitalized(s[1..], s[0] == '-');
      assert Capitalized(s, upper)[1..] == Capitalized(s[1..], s[0] == '-');
    }
  }

  // A string that is no token is taken as it is.
  lemma CanonicalOther(s: string)
    ensures (exists c :: c in s && !IsTokenChar(c)) ==> CanonicalKey(s) == s
  {
  }

  // The connection options a response names, in every value of its Connection field.
  ghost predicate NamesOption(h: Header, name: string) {
    exists i, part :: 0 <= i < |Values(h, "Connection")| && part in Split(Values(h, "Connection")[i], ',') &&
                      CanonicalKey(TrimSpace(part)) == name
  }

  lemma {:induction false} OptionsAre(values: seq<string>, part: string)
    ensures part in ConnectionTokens(values) <==>
              exists i :: 0 <= i < |values| && part in Split(values[i], ',')
  {
    hide Split;
    if values != [] {
      OptionsAre(values[1..], part);
      assert forall i :: 1 <= i < |values| ==> values[i] == values[1..][i - 1];
    }
  }

  // What is stored of a response's fields: all but the fields of the connection
  // (section 7.6.1 of RFC 9110) and the length, which is kept apart; of a partial reply
  // not its place either.
  lemma StoredFieldsAre(h: Header, name: string)
    ensures name in SanitizeStored(h) <==>
              name in h && !NamesOption(h, name) &&
              name !in {"Connection", "Keep-Alive", "Proxy-Authenticate", "Proxy-Authorization", "Te", "Trailer",
                        "Transfer-Encoding", "Upgrade", "Content-Length"}
    ensures name in SanitizeStored(h) ==> SanitizeStored(h)[name] == h[name]
    ensures name in SanitizeChunk(h) <==> name in SanitizeStored(h) && name != "Content-Range"
    ensures name in SanitizeChunk(h) ==> SanitizeChunk(h)[name] == h[name]
  {
    hide Split, CanonicalKey, TrimSpace;
    var values := Values(h, "Connection");
    forall part
      ensures part in ConnectionTokens(values) <==> exists i :: 0 <= i < |values| && part in Split(values[i], ',')
    {
      OptionsAre(values, part);
    }
    var options := set t | t in ConnectionTokens(values) :: CanonicalKey(TrimSpace(t));
    assert NamesOption(h, name) <==> name in options;
  }

  // After a 304, its fields where it has them, and the stored ones where it does not.
  lemma MergedFieldsAre(stored: Header, revalidated: Header, name: string)
    ensures var updates, merged := SanitizeStored(revalidated), MergeRevalidated(stored, revalidated);
            Values(merged, name) == if name in updates then updates[name] else Values(SanitizeStored(stored), name)
  {
    hide StripHopByHop;
  }

  lemma ValidatorsAre(h: Header)
    ensures HasValidators(h) <==> Get(h, "Etag") != "" || Get(h, "Last-Modified") != ""
    ensures ValidatorsOf(h).etag == TrimSpace(Get(h, "Etag")) &&
            ValidatorsOf(h).lastModified == TrimSpace(Get(h, "Last-Modified"))
  {
  }

  lemma AgesAre(value: string, n: nat)
    requires n <= MAX_INT64
    ensures ParseAge(FormatInt(n)) == n
    ensures ParseInt64(TrimSpace(value)).None? ==> ParseAge(value) == 0
    ensures ParseInt64(TrimSpace(value)).Some? && ParseInt64(TrimSpace(value)).value < 0 ==> ParseAge(value) == 0
  {
    FormatIntPlain(n);
    ParseFormatted(n);
  }

  ghost predicate AllTokens(s: string) {
    forall i :: 0 <= i < |s| ==> IsTokenChar(s[i])
  }

  ghost predicate IsWord(s: string) {
    s != "" && 'A' <= s[0] <= 'Z' && forall i :: 1 <= i < |s| ==> 'a' <= s[i] <= 'z'
  }

  // A name of two words in canonical form is canonical.
  lemma TwoWords(first: string, second: string)
    requires IsWord(first) && IsWord(second)
    ensures CanonicalKey(first + "-" + second) == first + "-" + second
  {
    hide IsTokenChar, Capitalized, IsWord;
    var rest, none := "-" + second, "";
    WordIsFixed(first, rest);
    HyphenIsFixed(second);
    WordIsFixed(second, none);
    assert second + none == second;
    assert Capitalized(none, false) == none by { NothingCapitalized(); }
    WordIsToken(first);
    WordIsToken(second);
    TokensJoin(first, second);
    assert first + "-" + second == first + rest;
  }

  lemma NothingCapitalized()
    ensures Capitalized("", false) == ""
  {
  }

  lemma WordIsToken(word: string)
    requires IsWord(word)
    ensures AllTokens(word)
  {
  }

  lemma TokensJoin(a: string, b: string)
    requires AllTokens(a) && AllTokens(b)
    ensures AllTokens(a + "-" + b)
  {
  }

  lemma WordIsFixed(word: string, rest: string)
    requires IsWord(word) && (rest == "" || rest[0] == '-')
    ensures Capitalized(word + rest, true) == word + Capitalized(rest, false)
  {
    assert (word + rest)[0] == word[0] && (word + rest)[1..] == word[1..] + rest;
    LettersAreFixed(word[1..], rest);
    assert [word[0]] + (word[1..] + Capitalized(rest, false)) == word + Capitalized(rest, false);
  }

  lemma {:induction false} LettersAreFixed(letters: string, rest: string)
    requires forall i :: 0 <= i < |letters| ==> 'a' <= letters[i] <= 'z'
    ensures Capitalized(letters + rest, false) == letters + Capitalized(rest, false)
  {
    if letters == "" {
      assert letters + rest == rest;
    } else {
      assert (letters + rest)[0] == letters[0] && (letters + rest)[1..] == letters[1..] + rest;
      LettersAreFixed(letters[1..], rest);
    }
  }

  lemma HyphenIsFixed(rest: string)
    ensures Capitalized("-" + rest, false) == "-" + Capitalized(rest, true) && ("-" + rest)[0] == '-'
  {
    assert ("-" + rest)[1..] == rest;
  }

  lemma ListedFieldNames()
    ensures CanonicalKey("Accept-Encoding") == "Accept-Encoding" && CanonicalKey("Accept-Language") == "Accept-Language"
  {
    hide CanonicalKey;
    TwoWords("Accept", "Encoding");
    TwoWords("Accept", "Language");
    assert "Accept" + "-" + "Encoding" == "Accept-Encoding" && "Accept" + "-" + "Language" == "Accept-Language";
  }
}
