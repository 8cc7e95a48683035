/** What the Cache-Control field says, in terms of its text, and what store decisions make
    of it (section 5.2.2 of RFC 9111). */
module Directives {
  import opened Text
  import opened Headers
  import opened CacheKeys
  import opened Freshness

  // The name of a directive: what is before the first equals sign, if there is one.
  ghost function NameOf(part: string): string {
    var s := TrimSpace(part);
    Lower(TrimSpace(if '=' in s then Cut(s, '=').value.0 else s))
  }

  // Its value: what is behind the sign, without quotes.
  ghost function ValueOf(part: string): Option<string> {
    var s := TrimSpace(part);
    if '=' in s then Some(TrimQuotes(TrimSpace(Cut(s, '=').value.1))) else None
  }

  ghost predicate AllQuotes(s: string) {
    forall i :: 0 <= i < |s| ==> s[i] == '\"'
  }

  // Quotes around a value go, and no others.
  lemma {:induction false} TrimQuotesIs(before: string, s: string, after: string)
    requires AllQuotes(before) && AllQuotes(after) && (s == "" || (s[0] != '\"' && s[|s| - 1] != '\"'))
    ensures TrimQuotes(before + s + after) == s
    decreases |before|
  {
    if before != "" {
      assert (before + s + after)[1..] == before[1..] + s + after;
      TrimQuotesIs(before[1..], s, after);
    } else {
      assert before + s + after == s + after;
      TrimsBehind(s, after);
    }
  }

  lemma {:induction false} TrimsBehind(s: string, after: string)
    requires AllQuotes(after) && (s == "" || (s[0] != '\"' && s[|s| - 1] != '\"'))
    ensures TrimQuotes(s + after) == s
    decreases |after|
  {
    if after == "" {
      assert s + after == s;
    } else if s == "" {
      assert (s + after)[1..] == s + after[1..];
      TrimsBehind(s, after[1..]);
    } else {
      var n := |after| - 1;
      assert (s + after)[..|s + after| - 1] == s + after[..n] && (s + after)[|s + after| - 1] == after[n];
      TrimsBehind(s, after[..n]);
    }
  }

  lemma DurationsAre(seconds: nat, value: string)
    ensures seconds <= 9_223_372_036 ==> DirectiveDuration(FormatInt(seconds)) == Some(seconds * 1_000_000_000)
    ensures DirectiveDuration(value).Some? <==> ParseInt64(value).Some? && ParseInt64(value).value >= 0
  {
    if seconds <= 9_223_372_036 { ParseFormatted(seconds); }
  }

  // The directive sets its field: it has a value and, for the stale durations, one that
  // is a number of seconds.
  ghost predicate Sets(part: string, name: string) {
    NameOf(part) == name && ValueOf(part).Some?
  }

  ghost predicate SetsNumber(part: string, name: string) {
    Sets(part, name) && DirectiveDuration(ValueOf(part).value).Some?
  }

  ghost predicate Has(parts: seq<string>, name: string) {
    exists i :: 0 <= i < |parts| && NameOf(parts[i]) == name
  }

  // The last part that sets the field, and what it sets it to; none if no part does.
  ghost function LastSet(parts: seq<string>, name: string): Option<int> {
    if parts == [] then None
    else if Sets(parts[|parts| - 1], name) then DirectiveDuration(ValueOf(parts[|parts| - 1]).value)
    else LastSet(parts[..|parts| - 1], name)
  }

  ghost function LastNumber(parts: seq<string>, name: string): int {
    if parts == [] then 0
    else if SetsNumber(parts[|parts| - 1], name) then DirectiveDuration(ValueOf(parts[|parts| - 1]).value).value
    else LastNumber(parts[..|parts| - 1], name)
  }

  // Which part that is.
  lemma {:induction false} LastSetIs(parts: seq<string>, name: string, i: nat)
    requires i < |parts| && Sets(parts[i], name) && forall j :: i < j < |parts| ==> !Sets(parts[j], name)
    ensures LastSet(parts, name) == DirectiveDuration(ValueOf(parts[i]).value)
    decreases |parts|
  {
    if i < |parts| - 1 { LastSetIs(parts[..|parts| - 1], name, i); }
  }

  lemma {:induction false} NoneSet(parts: seq<string>, name: string)
    requires forall j :: 0 <= j < |parts| ==> !Sets(parts[j], name)
    ensures LastSet(parts, name) == None
    decreases |parts|
  {
    if parts != [] { NoneSet(parts[..|parts| - 1], name); }
  }

  lemma {:induction false} LastNumberIs(parts: seq<string>, name: string, i: nat)
    requires i < |parts| && SetsNumber(parts[i], name) && forall j :: i < j < |parts| ==> !SetsNumber(parts[j], name)
    ensures LastNumber(parts, name) == DirectiveDuration(ValueOf(parts[i]).value).value
    decreases |parts|
  {
    if i < |parts| - 1 { LastNumberIs(parts[..|parts| - 1], name, i); }
  }

  lemma {:induction false} NoNumberSet(parts: seq<string>, name: string)
    requires forall j :: 0 <= j < |parts| ==> !SetsNumber(parts[j], name)
    ensures LastNumber(parts, name) == 0
    decreases |parts|
  {
    if parts != [] { NoNumberSet(parts[..|parts| - 1], name); }
  }

  const NO_DIRECTIVES: Directives := Directives(false, false, false, None, None, 0, 0)

  // What parts in a row come to.
  ghost function Said(parts: seq<string>): Directives {
    Directives(Has(parts, "no-store"), Has(parts, "private"), Has(parts, "no-cache"), LastSet(parts, "max-age"),
               LastSet(parts, "s-maxage"), LastNumber(parts, "stale-if-error"),
               LastNumber(parts, "stale-while-revalidate"))
  }

  lemma HasOneMore(parts: seq<string>, part: string, name: string)
    ensures Has(parts + [part], name) <==> Has(parts, name) || NameOf(part) == name
  {
    hide NameOf;
    var all := parts + [part];
    assert all[|parts|] == part && forall i :: 0 <= i < |parts| ==> all[i] == parts[i];
  }

  // One more directive changes its own field only.
  lemma OneMore(parts: seq<string>, part: string)
    ensures ApplyDirective(Said(parts), part) == Said(parts + [part])
  {
    hide TrimSpace, Lower, TrimQuotes, DirectiveDuration, Cut, Has;
    assert (parts + [part])[..|parts|] == parts;
    HasOneMore(parts, part, "no-store");
    HasOneMore(parts, part, "private");
    HasOneMore(parts, part, "no-cache");
    NothingToCut(TrimSpace(part), '=');
    assert TrimSpace("") == "" && Lower("") == "" by { NothingSaid(); }
  }

  lemma NothingSaid()
    ensures TrimSpace("") == "" && Lower("") == ""
  {
  }

  lemma {:induction false} AllSaid(parts: seq<string>, before: seq<string>)
    ensures ApplyDirectives(Said(before), parts) == Said(before + parts)
    decreases |parts|
  {
    hide ApplyDirective, Said;
    if parts == [] {
      assert before + parts == before;
    } else {
      OneMore(before, parts[0]);
      AllSaid(parts[1..], before + [parts[0]]);
      assert before + [parts[0]] + parts[1..] == before + parts;
    }
  }

  // The field says what its parts say: a flag if some part names it, and durations as the
  // last part that sets them has them.
  lemma DirectivesAre(value: string)
    ensures ParseCacheControl(value) == Said(Split(value, ','))
  {
    hide ApplyDirective, Split;
    NoPartsSaid();
    AllSaid(Split(value, ','), []);
    assert [] + Split(value, ',') == Split(value, ',');
  }

  lemma NoPartsSaid()
    ensures Said([]) == NO_DIRECTIVES
  {
  }

  lemma {:induction false} SplitConcat(a: string, c: char, b: string)
    ensures Split(a + [c] + b, c) == Split(a, c) + Split(b, c)
    decreases |a|
  {
    hide Split;
    if c in a {
      NothingToCut(a, c);
      var first, rest := Cut(a, c).value.0, Cut(a, c).value.1;
      SplitConcat(rest, c, b);
      SplitAtFirst(first, c, rest);
      SplitAtFirst(first, c, rest + [c] + b);
      assert a + [c] + b == first + [c] + (rest + [c] + b);
      assert [first] + (Split(rest, c) + Split(b, c)) == ([first] + Split(rest, c)) + Split(b, c);
    } else {
      SplitAtFirst(a, c, b);
      SplitOne(a, c);
    }
  }

  // The parts of a field are those of all its values.
  lemma {:induction false} PartsOfValues(values: seq<string>)
    requires values != []
    ensures Split(Join(values, ","), ',') == VaryParts(values)
  {
    hide Split;
    if |values| == 1 {
      PartsOfOne(values[0]);
      assert values == [values[0]];
    } else {
      PartsOfValues(values[1..]);
      SplitConcat(values[0], ',', Join(values[1..], ","));
      assert values[0] + [','] + Join(values[1..], ",") == values[0] + "," + Join(values[1..], ",");
    }
  }

  ghost function PartsOf(h: Header): seq<string> {
    VaryParts(Values(h, "Cache-Control"))
  }

  // A value of the field has a part of that name.
  ghost predicate NamesDirective(h: Header, name: string) {
    exists i, part :: 0 <= i < |Values(h, "Cache-Control")| && part in Split(Values(h, "Cache-Control")[i], ',') &&
                      NameOf(part) == name
  }

  lemma NamesIff(h: Header, name: string)
    ensures NamesDirective(h, name) <==> Has(PartsOf(h), name)
  {
    hide Split, NameOf, VaryParts;
    var values := Values(h, "Cache-Control");
    forall part
      ensures part in VaryParts(values) <==> exists i :: 0 <= i < |values| && part in Split(values[i], ',')
    {
      VaryPartsAre(values, part);
    }
    if Has(PartsOf(h), name) {
      var i :| 0 <= i < |PartsOf(h)| && NameOf(PartsOf(h)[i]) == name;
      assert PartsOf(h)[i] in VaryParts(values);
    }
    if NamesDirective(h, name) {
      var i, part :| 0 <= i < |values| && part in Split(values[i], ',') && NameOf(part) == name;
      assert part in PartsOf(h);
      var k :| 0 <= k < |PartsOf(h)| && PartsOf(h)[k] == part;
    }
  }

  // What the Cache-Control fields of a response say.
  lemma CacheControlIs(h: Header)
    ensures ParseCacheControl(CombinedValue(h, "Cache-Control")) == Said(PartsOf(h))
  {
    hide Split, ParseCacheControl, Said, VaryParts;
    var values := Values(h, "Cache-Control");
    DirectivesAre(CombinedValue(h, "Cache-Control"));
    if values == [] {
      BlankSaysNothing();
      assert VaryParts(values) == [] by { NoParts(); }
    } else {
      PartsOfValues(values);
    }
  }

  lemma NoParts()
    ensures VaryParts([]) == []
  {
  }

  lemma BlankSaysNothing()
    ensures Join([], ",") == "" && Said(Split("", ',')) == Said([])
  {
    hide Split, Lower;
    SplitOne("", ',');
    NothingSaid();
    HasOneMore([], "", "no-store");
    HasOneMore([], "", "private");
    HasOneMore([], "", "no-cache");
    assert [] + [""] == [""] && [""][..0] == [];
  }

  // How long a response stays fresh: what s-maxage says, or else max-age, or else nothing
  // at all under no-cache, or else the time until it expires.
  ghost function TimeToLive(h: Header, parseTime: string -> Option<int>, now: int): Option<int> {
    var parts, expires := PartsOf(h), Get(h, "Expires");
    if LastSet(parts, "s-maxage").Some? then LastSet(parts, "s-maxage")
    else if LastSet(parts, "max-age").Some? then LastSet(parts, "max-age")
    else if NamesDirective(h, "no-cache") then Some(0)
    else if expires == "" || parseTime(expires).None? then None
    else
      var left := parseTime(expires).value - now;
      Some(if left <= 0 then 0 else if left <= 0x7fff_ffff_ffff_ffff then left else 0x7fff_ffff_ffff_ffff)
  }

  lemma TimeToLiveIs(h: Header, parseTime: string -> Option<int>, now: int)
    ensures Ttl(ParseCacheControl(CombinedValue(h, "Cache-Control")), parseTime, now, Get(h, "Expires")) ==
            TimeToLive(h, parseTime, now)
  {
    hide LastSet, LastNumber, Has, NamesDirective, ParseCacheControl;
    CacheControlIs(h);
    NamesIff(h, "no-cache");
  }

  // What there is to decide on, whatever kind of response it is: nothing under a bypass,
  // or if Vary lists "*"; for a policy led by the origin nothing either if a part is named
  // no-store or private, if no lifetime is said, or if there is nothing to keep it for.
  ghost function Agreed(parseTime: string -> Option<int>, now: int, policy: Policy, h: Header): Option<Decision> {
    var vary := ParseVary(Values(h, "Vary"));
    if policy.mode == Bypass || Lists(Values(h, "Vary"), "*") || vary.None? then None
    else if policy.mode == FollowOrigin then
      var ttl := TimeToLive(h, parseTime, now);
      var saidStale := LastNumber(PartsOf(h), "stale-while-revalidate");
      var stale := if policy.optimistic && saidStale < policy.optimisticMaxStale then policy.optimisticMaxStale
          else saidStale;
      var onError := LastNumber(PartsOf(h), "stale-if-error");
      if NamesDirective(h, "no-store") || NamesDirective(h, "private") || ttl.None? ||
         (ttl.value == 0 && stale == 0 && onError == 0 && Get(h, "Etag") == "" && Get(h, "Last-Modified") == "")
      then None
      else Some(Decision(true, ttl.value, stale, onError, vary.value))
    else
      Some(Decision(true, if policy.hasTtl then policy.ttl else 300_000_000_000,
                    if policy.optimistic then policy.optimisticMaxStale else 0,
                    if policy.hasStaleIfError then policy.staleIfError else 0, vary.value))
  }

  lemma MetadataDecisionIs(parseTime: string -> Option<int>, now: int, policy: Policy, h: Header)
    ensures DecideChunkMetadata(parseTime, now, policy, h) == Agreed(parseTime, now, policy, h)
  {
    hide ParseVary, ParseCacheControl, LastSet, LastNumber, Has, NamesDirective, Lists, Ttl, TimeToLive;
    CacheControlIs(h);
    NamesIff(h, "no-store");
    NamesIff(h, "private");
    TimeToLiveIs(h, parseTime, now);
    VaryIs(Values(h, "Vary"), "");
  }

  // A full response of one of these statuses is stored as agreed, unless it is a part or
  // sets a cookie.
  lemma StoreDecisionIs(parseTime: string -> Option<int>, now: int, policy: Policy, status: int, h: Header)
    ensures var agreed := Agreed(parseTime, now, policy, h);
            DecideStore(parseTime, now, policy, status, h) ==
            if status in {200, 203, 204, 300, 301, 404, 405, 410, 414, 501} && Get(h, "Content-Range") == "" &&
               Values(h, "Set-Cookie") == [] && agreed.Some? then agreed.value
            else Decision(false, 0, 0, 0, [])
  {
    hide ParseVary, ParseCacheControl, LastSet, LastNumber, Has, NamesDirective, Lists, Ttl, TimeToLive;
    CacheControlIs(h);
    NamesIff(h, "no-store");
    NamesIff(h, "private");
    TimeToLiveIs(h, parseTime, now);
    VaryIs(Values(h, "Vary"), "");
  }

  // A part is, if it is in its plain encoding and sets no cookie.
  lemma ChunkDecisionIs(parseTime: string -> Option<int>, now: int, policy: Policy, status: int, h: Header)
    ensures var agreed, encoding := Agreed(parseTime, now, policy, h), TrimSpace(Get(h, "Content-Encoding"));
            DecideChunkStore(parseTime, now, policy, status, h) ==
            if status == 206 && Get(h, "Content-Range") != "" && Values(h, "Set-Cookie") == [] &&
               (encoding == "" || Lower(encoding) == "identity") && agreed.Some? then agreed.value
            else Decision(false, 0, 0, 0, [])
  {
    hide ParseVary, ParseCacheControl, LastSet, LastNumber, Has, NamesDirective, Lists, Ttl, TimeToLive, Lower;
    CacheControlIs(h);
    NamesIff(h, "no-store");
    NamesIff(h, "private");
    TimeToLiveIs(h, parseTime, now);
    VaryIs(Values(h, "Vary"), "");
  }

  // A response that says no-store or private, under a policy led by the origin.
  ghost predicate Forbids(policy: Policy, h: Header) {
    policy.mode == FollowOrigin && (NamesDirective(h, "no-store") || NamesDirective(h, "private"))
  }

  // Such a response is never stored.
  lemma ForbiddenIsRefused(parseTime: string -> Option<int>, now: int, policy: Policy, status: int, h: Header)
    requires Forbids(policy, h)
    ensures !DecideStore(parseTime, now, policy, status, h).store &&
            !DecideChunkStore(parseTime, now, policy, status, h).store &&
            DecideChunkMetadata(parseTime, now, policy, h).None?
  {
    hide NamesDirective, DecideStore, DecideChunkStore, DecideChunkMetadata, TimeToLive, LastNumber, Lists, ParseVary;
    StoreDecisionIs(parseTime, now, policy, status, h);
    ChunkDecisionIs(parseTime, now, policy, status, h);
    MetadataDecisionIs(parseTime, now, policy, h);
  }
}
