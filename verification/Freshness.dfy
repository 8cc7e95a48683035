/** What may be stored and for how long: store decisions from a policy and the
    response fields, and the windows built from them in int64 nanoseconds
    (sections 3 and 4 of RFC 5861). */
module Freshness {
  import opened Text
  import opened Headers
  import opened CacheKeys

  const SECOND: int := 1_000_000_000
  const DEFAULT_MANAGED_TTL: int := 300 * SECOND
  const OPTIMISTIC_MAX_STALE: int := 3600 * SECOND

  // int64 arithmetic wraps around.
  function Wrap64(x: int): (r: int)
    ensures MIN_INT64 <= r <= MAX_INT64
    ensures MIN_INT64 <= x <= MAX_INT64 ==> r == x
  {
    (x - MIN_INT64) % 0x1_0000_0000_0000_0000 + MIN_INT64
  }

  // time.Time.Sub saturates.
  function Saturate64(x: int): int {
    if x < MIN_INT64 then MIN_INT64 else if x > MAX_INT64 then MAX_INT64 else x
  }

  function MaxDuration(a: int, b: int): int {
    if b > a then b else a
  }

  datatype CacheMode = FollowOrigin | Bypass | ForceCache | OverrideOrigin

  datatype Policy = Policy(
    siteId: string, ruleId: string, policyTag: string, mode: CacheMode,
    ttl: int, hasTtl: bool, staleIfError: int, hasStaleIfError: bool,
    optimistic: bool, optimisticMaxStale: int)

  datatype Directives = Directives(
    noStore: bool, isPrivate: bool, noCache: bool, maxAge: Option<int>, sMaxAge: Option<int>,
    staleIfError: int, staleWhileRevalidate: int)

  function DirectiveDuration(value: string): Option<int> {
    match ParseInt64(value)
    case None => None
    case Some(seconds) => if seconds < 0 then None else Some(Wrap64(seconds * SECOND))
  }

  function TrimQuotes(s: string): string {
    if s != "" && s[0] == '\"' then TrimQuotes(s[1..])
    else if s != "" && s[|s| - 1] == '\"' then TrimQuotes(s[..|s| - 1])
    else s
  }

  function ApplyDirective(d: Directives, raw: string): Directives {
    var part := TrimSpace(raw);
    if part == "" then d
    else
      var cut := Cut(part, '=');
      var key := Lower(TrimSpace(if cut.Some? then cut.value.0 else part));
      var duration := if cut.Some? then DirectiveDuration(TrimQuotes(TrimSpace(cut.value.1))) else None;
      match key
      case "no-store" => d.(noStore := true)
      case "private" => d.(isPrivate := true)
      case "no-cache" => d.(noCache := true)
      case "s-maxage" => if cut.Some? then d.(sMaxAge := duration) else d
      case "max-age" => if cut.Some? then d.(maxAge := duration) else d
      case "stale-if-error" => if duration.Some? then d.(staleIfError := duration.value) else d
      case "stale-while-revalidate" => if duration.Some? then d.(staleWhileRevalidate := duration.value) else d
      case _ => d
  }

  function ApplyDirectives(d: Directives, parts: seq<string>): Directives
    decreases |parts|
  {
    if parts == [] then d else ApplyDirectives(ApplyDirective(d, parts[0]), parts[1..])
  }

  function ParseCacheControl(value: string): Directives {
    ApplyDirectives(Directives(false, false, false, None, None, 0, 0), Split(value, ','))
  }

  // parseTime stands for the HTTP date parser; s-maxage wins over max-age,
  // max-age over no-cache, and no-cache over Expires.
  function Ttl(d: Directives, parseTime: string -> Option<int>, now: int, expires: string): Option<int> {
    if d.sMaxAge.Some? then d.sMaxAge
    else if d.maxAge.Some? then d.maxAge
    else if d.noCache then Some(0)
    else if expires != "" then
      match parseTime(expires)
      case None => None
      case Some(at) => Some(MaxDuration(0, Saturate64(at - now)))
    else None
  }

  datatype Decision = Decision(store: bool, ttl: int, staleWindow: int, staleIfError: int, vary: seq<string>)

  const NO_STORE: Decision := Decision(false, 0, 0, 0, [])

  const CACHEABLE_STATUSES: set<int> := {200, 203, 204, 300, 301, 404, 405, 410, 414, 501}

  function DecideStore(parseTime: string -> Option<int>, now: int, policy: Policy, status: int, h: Header): Decision {
    if status !in CACHEABLE_STATUSES || Get(h, "Content-Range") != "" then NO_STORE
    else if |Values(h, "Set-Cookie")| > 0 then NO_STORE
    else
      match policy.mode
      case Bypass => NO_STORE
      case FollowOrigin =>
        var d := ParseCacheControl(CombinedValue(h, "Cache-Control"));
        var ttl, vary := Ttl(d, parseTime, now, Get(h, "Expires")), ParseVary(Values(h, "Vary"));
        if d.noStore || d.isPrivate || ttl.None? || vary.None? then NO_STORE
        else
          var staleWindow := if policy.optimistic then MaxDuration(d.staleWhileRevalidate, policy.optimisticMaxStale)
              else d.staleWhileRevalidate;
          if ttl.value == 0 && staleWindow == 0 && d.staleIfError == 0 && !HasValidators(h) then NO_STORE
          else Decision(true, ttl.value, staleWindow, d.staleIfError, vary.value)
      case _ =>
        var vary := ParseVary(Values(h, "Vary"));
        if vary.None? then NO_STORE
        else Decision(true,
                      if policy.hasTtl then policy.ttl else DEFAULT_MANAGED_TTL,
                      if policy.optimistic then policy.optimisticMaxStale else 0,
                      if policy.hasStaleIfError then policy.staleIfError else 0,
                      vary.value)
  }

  predicate PlainEncoding(h: Header) {
    var encoding := TrimSpace(Get(h, "Content-Encoding"));
    encoding == "" || Lower(encoding) == "identity"
  }

  function DecideChunkStore(parseTime: string -> Option<int>, now: int, policy: Policy, status: int,
                            h: Header): Decision {
    if status != 206 || Get(h, "Content-Range") == "" then NO_STORE
    else if |Values(h, "Set-Cookie")| > 0 then NO_STORE
    else if !PlainEncoding(h) then NO_STORE
    else
      match policy.mode
      case Bypass => NO_STORE
      case FollowOrigin =>
        var d := ParseCacheControl(CombinedValue(h, "Cache-Control"));
        if d.noStore || d.isPrivate then NO_STORE
        else
          (match Ttl(d, parseTime, now, Get(h, "Expires"))
           case None => NO_STORE
           case Some(ttl) =>
             var staleWindow := if policy.optimistic then MaxDuration(d.staleWhileRevalidate, policy.optimisticMaxStale)
                 else d.staleWhileRevalidate;
             match ParseVary(Values(h, "Vary"))
             case None => NO_STORE
             case Some(vary) =>
               if ttl == 0 && staleWindow == 0 && d.staleIfError == 0 && !HasValidators(h) then NO_STORE
               else Decision(true, ttl, staleWindow, d.staleIfError, vary))
      case _ =>
        var ttl := if policy.hasTtl then policy.ttl else DEFAULT_MANAGED_TTL;
        var staleWindow := if policy.optimistic then policy.optimisticMaxStale else 0;
        var staleIfError := if policy.hasStaleIfError then policy.staleIfError else 0;
        match ParseVary(Values(h, "Vary"))
        case None => NO_STORE
        case Some(vary) => Decision(true, ttl, staleWindow, staleIfError, vary)
  }

  // The decision taken from validation fields alone; None makes the caller drop the object.
  function DecideChunkMetadata(parseTime: string -> Option<int>, now: int, policy: Policy,
                               h: Header): (r: Option<Decision>)
    ensures r.Some? ==> r.value.store && policy.mode != Bypass && ParseVary(Values(h, "Vary")) == Some(r.value.vary)
    ensures r.Some? && policy.mode == FollowOrigin ==>
              HasValidators(h) || r.value.ttl != 0 || r.value.staleWindow != 0 || r.value.staleIfError != 0
  {
    match policy.mode
    case Bypass => None
    case FollowOrigin =>
      var d := ParseCacheControl(CombinedValue(h, "Cache-Control"));
      if d.noStore || d.isPrivate then None
      else
        (match Ttl(d, parseTime, now, Get(h, "Expires"))
         case None => None
         case Some(ttl) =>
           var staleWindow := if policy.optimistic then MaxDuration(d.staleWhileRevalidate, policy.optimisticMaxStale)
               else d.staleWhileRevalidate;
           match ParseVary(Values(h, "Vary"))
           case None => None
           case Some(vary) =>
             if ttl == 0 && staleWindow == 0 && d.staleIfError == 0 && !HasValidators(h) then None
             else Some(Decision(true, ttl, staleWindow, d.staleIfError, vary)))
    case _ =>
      match ParseVary(Values(h, "Vary"))
      case None => None
      case Some(vary) =>
        Some(Decision(true,
                      if policy.hasTtl then policy.ttl else DEFAULT_MANAGED_TTL,
                      if policy.optimistic then policy.optimisticMaxStale else 0,
                      if policy.hasStaleIfError then policy.staleIfError else 0,
                      vary))
  }

  datatype Windows = Windows(storedAt: int, freshUntil: int, staleUntil: int, invalidAt: int)

  // The four clock readings are one instant where an entry is built and four
  // successive ones where an object is renewed.
  function BuildWindows(at: int, freshFrom: int, staleFrom: int, invalidFrom: int, d: Decision,
                        validators: bool): Windows {
    var freshUntil := freshFrom + d.ttl;
    var staleUntil := staleFrom + Wrap64(d.ttl + d.staleWindow);
    var computed := invalidFrom + Wrap64(d.ttl + d.staleWindow + d.staleIfError);
    var extended := if computed <= at && validators then at + DEFAULT_MANAGED_TTL else computed;
    Windows(at, freshUntil,
            if staleUntil < freshUntil then freshUntil else staleUntil,
            if extended < at then at else extended)
  }

  function WindowsAt(now: int, d: Decision, validators: bool): Windows {
    BuildWindows(now, now, now, now, d, validators)
  }

  // Wrapping keeps a number's remainder.
  lemma WrapIs(x: int)
    ensures (x - Wrap64(x)) % 0x1_0000_0000_0000_0000 == 0
  {
  }

  // The windows of durations that are not negative and add up within int64: each starts
  // where the one before ends, and where there is nothing to keep a response for, it is
  // kept for five minutes if it has validators and not at all if it has none.
  lemma WindowsAre(at: int, freshFrom: int, staleFrom: int, invalidFrom: int, d: Decision, validators: bool)
    requires d.ttl >= 0 && d.staleWindow >= 0 && d.staleIfError >= 0
    requires d.ttl + d.staleWindow + d.staleIfError <= MAX_INT64
    requires at <= freshFrom <= staleFrom <= invalidFrom
    ensures var w, sum := BuildWindows(at, freshFrom, staleFrom, invalidFrom, d, validators),
              d.ttl + d.staleWindow + d.staleIfError;
            w.storedAt == at && w.freshUntil == freshFrom + d.ttl &&
            w.staleUntil == staleFrom + d.ttl + d.staleWindow &&
            w.invalidAt == if invalidFrom + sum == at && validators then at + 300_000_000_000 else invalidFrom + sum
  {
  }

  ghost predicate Ordered(w: Windows) {
    w.storedAt <= w.freshUntil <= w.staleUntil <= w.invalidAt
  }

  // Each duration is some int64.
  ghost predicate Representable(d: Decision) {
    MIN_INT64 <= d.ttl <= MAX_INT64 && MIN_INT64 <= d.staleWindow <= MAX_INT64 &&
    MIN_INT64 <= d.staleIfError <= MAX_INT64
  }

  // How long an entry remains: the wrapped sum of the durations; where that is not
  // positive, the default if there are validators, and nothing if there are none.
  function Lifetime(d: Decision, validators: bool): int {
    var sum := Wrap64(d.ttl + d.staleWindow + d.staleIfError);
    if sum > 0 then sum else if validators then DEFAULT_MANAGED_TTL else 0
  }

  // For all int64 durations, the windows nest exactly when the time to live is not
  // negative, and neither it nor the wrapped end of staleness exceeds the lifetime.
  lemma WindowsOrderedIff(now: int, d: Decision, validators: bool)
    requires Representable(d)
    ensures var w, lifetime := WindowsAt(now, d, validators), Lifetime(d, validators);
            (Ordered(w) <==> 0 <= d.ttl <= lifetime && Wrap64(d.ttl + d.staleWindow) <= lifetime) &&
            w.invalidAt == now + lifetime
  {
  }

  // A header can make the time to live negative, and then they never nest.
  lemma NegativeTtlNeverNests(now: int, d: Decision, validators: bool)
    requires Representable(d) && d.ttl < 0
    ensures !Ordered(WindowsAt(now, d, validators))
  {
  }

  lemma DirectiveWraps()
    ensures DirectiveDuration(FormatInt(9_223_372_037)).Some? && DirectiveDuration(FormatInt(9_223_372_037)).value < 0
  {
    hide FormatInt, ParseInt64;
    ParseFormatted(9_223_372_037);
    WrapCases(9_223_372_037 * SECOND);
  }

  // Where nothing wraps and the time to live is not negative, a stale duration may be
  // negative as well: the windows nest exactly when the error window reaches beyond both
  // the fresh one and the stale one, or nothing remains and validators give the default.
  lemma UnwrappedOrderedIff(now: int, d: Decision, validators: bool)
    requires Representable(d) && d.ttl >= 0
    requires MIN_INT64 <= d.ttl + d.staleWindow <= MAX_INT64 &&
             MIN_INT64 <= d.ttl + d.staleWindow + d.staleIfError <= MAX_INT64
    ensures Ordered(WindowsAt(now, d, validators)) <==>
            if d.ttl + d.staleWindow + d.staleIfError > 0 then d.staleIfError >= 0 &&
                                                               d.staleWindow + d.staleIfError >= 0
            else if validators then d.ttl <= DEFAULT_MANAGED_TTL && d.ttl + d.staleWindow <= DEFAULT_MANAGED_TTL
            else d.ttl == 0 && d.staleWindow <= 0
  {
  }

  // For durations that are not negative, that is: they add up within int64; or the sum
  // wraps, but validators replace the lost lifetime and staleness ends before that.
  lemma NonNegativeOrderedIff(now: int, d: Decision, validators: bool)
    requires Representable(d) && d.ttl >= 0 && d.staleWindow >= 0 && d.staleIfError >= 0
    ensures Ordered(WindowsAt(now, d, validators)) <==>
            (d.ttl + d.staleWindow + d.staleIfError <= MAX_INT64 ||
             (validators && Wrap64(d.ttl + d.staleWindow + d.staleIfError) <= 0 &&
              d.ttl <= DEFAULT_MANAGED_TTL && Wrap64(d.ttl + d.staleWindow) <= DEFAULT_MANAGED_TTL))
  {
    WrapCases(d.ttl + d.staleWindow + d.staleIfError);
    WrapCases(d.ttl + d.staleWindow);
  }

  lemma WrapCases(x: int)
    requires 0 <= x < 2 * 0x1_0000_0000_0000_0000
    ensures Wrap64(x) == if x <= MAX_INT64 then x
                         else if x <= MAX_INT64 + 0x1_0000_0000_0000_0000 then x - 0x1_0000_0000_0000_0000
                         else x - 2 * 0x1_0000_0000_0000_0000
  {
  }

  const SAFE_SECONDS: int := 3_074_457_345

  ghost predicate WithinLimits(d: Decision) {
    0 <= d.ttl <= SAFE_SECONDS * SECOND && 0 <= d.staleWindow <= SAFE_SECONDS * SECOND &&
    0 <= d.staleIfError <= SAFE_SECONDS * SECOND
  }

  ghost predicate TtlPositive(policy: Policy) {
    policy.hasTtl ==> policy.ttl > 0
  }

  // Whatever is decided storable stays in the store for a positive time, and its
  // windows nest, if no duration exceeds about 97 years.
  lemma StorableWindows(parseTime: string -> Option<int>, now: int, policy: Policy, status: int, h: Header)
    requires TtlPositive(policy)
    ensures var d := DecideStore(parseTime, now, policy, status, h);
            d.store && WithinLimits(d) ==>
              var w := WindowsAt(now, d, HasValidators(h));
              Ordered(w) && w.storedAt < w.invalidAt
    ensures var d := DecideChunkStore(parseTime, now, policy, status, h);
            d.store && WithinLimits(d) ==>
              var w := WindowsAt(now, d, HasValidators(h));
              Ordered(w) && w.storedAt < w.invalidAt
  {
  }

  // Each seconds value a header can carry is converted without wrap-around exactly
  // up to 9,223,372,036.
  lemma DirectiveDurationExact(value: string, seconds: int)
    requires ParseInt64(value) == Some(seconds) && seconds >= 0
    ensures DirectiveDuration(value) == Some(seconds * SECOND) <==> seconds <= 9_223_372_036
  {
  }

  lemma OtherFieldsKept(h: Header, contentRange: string)
    ensures var g := h["Content-Range" := [contentRange]];
            Get(g, "Content-Range") == contentRange && Values(g, "Set-Cookie") == Values(h, "Set-Cookie") &&
            PlainEncoding(g) == PlainEncoding(h) && HasValidators(g) == HasValidators(h) &&
            CombinedValue(g, "Cache-Control") == CombinedValue(h, "Cache-Control") &&
            Get(g, "Expires") == Get(h, "Expires") && Values(g, "Vary") == Values(h, "Vary") &&
            Get(g, "Access-Control-Allow-Origin") == Get(h, "Access-Control-Allow-Origin")
  {
  }

  // A renewal decides, keys and dates an object as a cookie-free, unencoded 206
  // carrying the same fields would at the same instant.
  lemma RenewalEqualsRefetch(parseTime: string -> Option<int>, digest: string -> string, now: int, policy: Policy,
                             base: string, requestHeader: Header, h: Header, contentRange: string)
    requires |Values(h, "Set-Cookie")| == 0 && PlainEncoding(h) && contentRange != ""
    ensures var renewal := DecideChunkMetadata(parseTime, now, policy, h);
            var refetched := h["Content-Range" := [contentRange]];
            var refetch := DecideChunkStore(parseTime, now, policy, 206, refetched);
            (renewal.Some? <==> refetch.store) &&
            (renewal.Some? ==>
               WindowsAt(now, renewal.value, HasValidators(h)) == WindowsAt(now, refetch, HasValidators(refetched)) &&
               StorageKey(digest, base, EffectiveVary(requestHeader, Some(h), renewal.value.vary), requestHeader)
               == StorageKey(digest, base, EffectiveVary(requestHeader, Some(refetched), refetch.vary), requestHeader))
  {
    hide ParseVary, ParseCacheControl, Ttl, HasValidators, PlainEncoding, WindowsAt, CombinedValue, Sort,
         CanonicalNames;
    var refetched := h["Content-Range" := [contentRange]];
    OtherFieldsKept(h, contentRange);
    var renewal := DecideChunkMetadata(parseTime, now, policy, h);
    var refetch := DecideChunkStore(parseTime, now, policy, 206, refetched);
    assert refetch == (if renewal.Some? then renewal.value else NO_STORE);
    if renewal.Some? {
      assert EffectiveVary(requestHeader, Some(h), renewal.value.vary) ==
               EffectiveVary(requestHeader, Some(refetched), refetch.vary);
    }
  }
}
