/** The control plane's configuration and its validation. */
module Config {
  import opened Text
  import opened Headers
  import opened Policies

  datatype MatchClause = MatchClause(logical: string, field: string, operator: string, name: string, value: string)

  datatype MatchSpec = MatchSpec(clauses: seq<MatchClause>, any: bool)

  datatype Rule = Rule(id: string, name: string, enabled: bool, isSystem: bool, spec: MatchSpec, action: CacheAction)

  datatype Upstream = Upstream(url: string, hostMode: string, host: string)

  datatype Site = Site(id: string, name: string, enabled: bool, hosts: seq<string>, upstream: Upstream,
                       rules: seq<Rule>)

  datatype AppConfig = AppConfig(sites: seq<Site>)

  datatype ParsedUrl = ParsedUrl(scheme: string, host: string, path: string, rawQuery: string, fragment: string)

  // The library functions validation and compilation rest on: host normalisation, the
  // URL and duration parsers, and the glob matcher.
  datatype Library = Library(
    normalizeHost: string -> string, normalizeUpstreamHost: string -> Option<string>,
    parseUrl: string -> Option<ParsedUrl>, parseDuration: string -> Option<int>, glob: (string, string) -> bool)

  const HOST_MODES: set<string> := {"follow_origin", "follow_request", "custom"}

  const DEFAULT_RULE: Rule := Rule("default", "Default Rule", true, true, MatchSpec([], true),
                                   CacheAction("follow_origin", "", "", false))

  predicate Blank(s: string) {
    TrimSpace(s) == ""
  }

  predicate PositiveDuration(lib: Library, raw: string) {
    var d := lib.parseDuration(raw);
    d.Some? && d.value > 0
  }

  predicate ValidClause(c: MatchClause) {
    !Blank(c.field) && !Blank(c.operator) &&
    match c.field
    case "hostname" => c.operator in {"equals", "not_equals", "contains", "not_contains", "starts_with",
                                      "not_starts_with"} && !Blank(c.value)
    case "uri_path" =>
      c.operator in {"equals", "not_equals", "contains", "not_contains", "starts_with", "not_starts_with",
                     "matches_glob", "not_matches_glob"} && !Blank(c.value)
    case "method" => c.operator in {"equals", "not_equals"} && !Blank(c.value)
    case "request_header" =>
      !Blank(c.name) && (c.operator in {"exists", "not_exists"} ||
                         (c.operator in {"equals", "not_equals", "contains", "not_contains"} && !Blank(c.value)))
    case _ => false
  }

  // The comparisons a field has, each with its negation.
  ghost predicate Compares(field: string, operator: string) {
    match field
    case "hostname" => operator in {"equals", "contains", "starts_with"}
    case "uri_path" => operator in {"equals", "contains", "starts_with", "matches_glob"}
    case "method" => operator == "equals"
    case "request_header" => operator in {"equals", "contains", "exists"}
    case _ => false
  }

  // The field has the comparison, or its negation.
  ghost predicate HasOperator(field: string, s: string) {
    exists operator :: Compares(field, operator) && (s == operator || s == "not_" + operator)
  }

  // A clause is valid exactly if its field has the operator, and it says what to compare
  // with, and which header.
  lemma ClauseValidIff(c: MatchClause)
    ensures ValidClause(c) <==>
            HasOperator(c.field, c.operator) &&
            (c.operator == "exists" || c.operator == "not_exists" || !AllSpaces(c.value)) &&
            (c.field == "request_header" ==> !AllSpaces(c.name))
  {
    hide Blank, AllSpaces, HasOperator, Compares;
    BlankIs(c.value);
    BlankIs(c.name);
    WordNotBlank(c.field);
    WordNotBlank(c.operator);
    match c.field
    case "hostname" => HostOperators(c.operator);
    case "uri_path" => PathOperators(c.operator);
    case "method" => MethodOperators(c.operator);
    case "request_header" => HeaderOperators(c.operator);
    case _ => NoOperators(c.field, c.operator);
  }

  lemma HostOperators(s: string)
    ensures HasOperator("hostname", s) <==>
            s in {"equals", "not_equals", "contains", "not_contains", "starts_with", "not_starts_with"}
  {
    Negations();
    assert Compares("hostname", "equals") && Compares("hostname", "contains") && Compares("hostname", "starts_with");
  }

  lemma PathOperators(s: string)
    ensures HasOperator("uri_path", s) <==>
            s in {"equals", "not_equals", "contains", "not_contains", "starts_with", "not_starts_with", "matches_glob",
                  "not_matches_glob"}
  {
    Negations();
    assert Compares("uri_path", "equals") && Compares("uri_path", "contains") && Compares("uri_path", "starts_with");
    assert Compares("uri_path", "matches_glob");
  }

  lemma MethodOperators(s: string)
    ensures HasOperator("method", s) <==> s in {"equals", "not_equals"}
  {
    Negations();
    assert Compares("method", "equals");
  }

  lemma HeaderOperators(s: string)
    ensures HasOperator("request_header", s) <==>
            s in {"equals", "not_equals", "contains", "not_contains", "exists", "not_exists"}
  {
    Negations();
    assert Compares("request_header", "equals") && Compares("request_header", "contains");
    assert Compares("request_header", "exists");
  }

  lemma NoOperators(field: string, s: string)
    requires field !in {"hostname", "uri_path", "method", "request_header"}
    ensures !HasOperator(field, s)
  {
  }

  lemma Negations()
    ensures "not_" + "equals" == "not_equals" && "not_" + "contains" == "not_contains" &&
            "not_" + "starts_with" == "not_starts_with" && "not_" + "matches_glob" == "not_matches_glob" &&
            "not_" + "exists" == "not_exists"
  {
  }

  lemma WordNotBlank(s: string)
    ensures s != "" && 'a' <= s[0] <= 'z' ==> !Blank(s)
  {
    BlankIs(s);
  }

  lemma BlankIs(s: string)
    ensures Blank(s) <==> AllSpaces(s)
  {
    hide IsSpace;
    if AllSpaces(s) {
      TrimSpaceIs(s, "", "");
      assert s + "" + "" == s;
    } else {
      NotAllTrimmed(s);
    }
  }

  lemma NotAllTrimmed(s: string)
    requires !AllSpaces(s)
    ensures TrimSpace(s) != ""
  {
    var i :| 0 <= i < |s| && !IsSpace(s[i]);
    KeptByTrimLeft(s, i);
    var t := TrimLeft(s);
    KeptByTrimRight(t, 0);
  }

  lemma {:induction false} KeptByTrimLeft(s: string, i: nat)
    requires i < |s| && !IsSpace(s[i])
    ensures TrimLeft(s) != "" && !IsSpace(TrimLeft(s)[0])
  {
    if IsSpace(s[0]) { KeptByTrimLeft(s[1..], i - 1); }
  }

  lemma {:induction false} KeptByTrimRight(s: string, i: nat)
    requires i < |s| && !IsSpace(s[i])
    ensures TrimRight(s) != ""
    decreases |s|
  {
    if IsSpace(s[|s| - 1]) { KeptByTrimRight(s[..|s| - 1], i); }
  }

  // Clauses are joined by "and" or "or", all but the first.
  ghost predicate ValidClauses(clauses: seq<MatchClause>) {
    clauses != [] && clauses[0].logical == "" &&
    (forall i :: 1 <= i < |clauses| ==> clauses[i].logical in {"and", "or"}) &&
    (forall i :: 0 <= i < |clauses| ==> ValidClause(clauses[i]))
  }

  predicate ValidActionOf(lib: Library, a: CacheAction) {
    var timed := a.mode == "force_cache" || a.mode == "override_origin";
    a.mode in MODES && (a.ttl != "" ==> timed && PositiveDuration(lib, a.ttl)) &&
    (a.staleIfError != "" ==> timed && PositiveDuration(lib, a.staleIfError)) && !(a.optimistic && a.mode == "bypass")
  }

  // An action is valid exactly if its mode is known, durations are given for the managed
  // modes only and are positive, and a bypass is not optimistic.
  lemma ActionValidIff(lib: Library, a: CacheAction)
    ensures ValidActionOf(lib, a) <==>
            (match a.mode
             case "follow_origin" => a.ttl == "" && a.staleIfError == ""
             case "bypass" => a.ttl == "" && a.staleIfError == "" && !a.optimistic
             case "force_cache" => GivenPositive(lib, a.ttl) && GivenPositive(lib, a.staleIfError)
             case "override_origin" => GivenPositive(lib, a.ttl) && GivenPositive(lib, a.staleIfError)
             case _ => false)
  {
  }

  ghost predicate GivenPositive(lib: Library, raw: string) {
    raw != "" ==> exists d :: lib.parseDuration(raw) == Some(d) && 0 < d
  }

  // Exactly the last rule catches all; it is a system rule and stays enabled.
  ghost predicate ValidRule(lib: Library, rule: Rule, isLast: bool) {
    !Blank(rule.id) && !Blank(rule.name) && ValidActionOf(lib, rule.action) &&
    if rule.spec.any then isLast && rule.isSystem && rule.enabled else !isLast && ValidClauses(rule.spec.clauses)
  }

  ghost predicate Distinct<T>(s: seq<T>) {
    forall i, j :: 0 <= i < j < |s| ==> s[i] != s[j]
  }

  function RuleIds(rules: seq<Rule>): (r: seq<string>)
    ensures |r| == |rules| && forall i :: 0 <= i < |r| ==> r[i] == rules[i].id
  {
    if rules == [] then [] else [rules[0].id] + RuleIds(rules[1..])
  }

  ghost predicate ValidRules(lib: Library, rules: seq<Rule>) {
    rules != [] && (forall i :: 0 <= i < |rules| ==> ValidRule(lib, rules[i], i == |rules| - 1)) &&
    Distinct(RuleIds(rules))
  }

  predicate ValidUpstream(lib: Library, up: Upstream) {
    var url, host := lib.parseUrl(up.url), lib.normalizeUpstreamHost(up.host);
    var mode := if up.hostMode == "" then "follow_origin" else up.hostMode;
    url.Some? && (url.value.scheme == "http" || url.value.scheme == "https") && url.value.host != "" &&
    (url.value.path == "" || url.value.path == "/") && url.value.rawQuery == "" && url.value.fragment == "" &&
    mode in HOST_MODES && host.Some? && (mode == "custom" <==> host.value != "")
  }

  // An upstream is valid exactly if its URL is a bare HTTP address, and it names a host of
  // its own in the custom mode and only there.
  lemma UpstreamValidIff(lib: Library, up: Upstream)
    ensures ValidUpstream(lib, up) <==>
            exists url, host :: lib.parseUrl(up.url) == Some(url) && lib.normalizeUpstreamHost(up.host) == Some(host) &&
              url.scheme in {"http", "https"} && url.host != "" && url.path in {"", "/"} &&
              url.rawQuery == "" && url.fragment == "" &&
              if host != "" then up.hostMode == "custom" else up.hostMode in {"", "follow_origin", "follow_request"}
  {
  }

  ghost predicate ValidSite(lib: Library, site: Site) {
    !Blank(site.id) && !Blank(site.name) && site.hosts != [] &&
    (forall i :: 0 <= i < |site.hosts| ==> lib.normalizeHost(site.hosts[i]) != "") &&
    ValidUpstream(lib, site.upstream) && ValidRules(lib, site.rules)
  }

  function SiteIds(sites: seq<Site>): (r: seq<string>)
    ensures |r| == |sites| && forall i :: 0 <= i < |r| ==> r[i] == sites[i].id
  {
    if sites == [] then [] else [sites[0].id] + SiteIds(sites[1..])
  }

  function Normalized(lib: Library, hosts: seq<string>): (r: seq<string>)
    ensures |r| == |hosts| && forall i :: 0 <= i < |r| ==> r[i] == lib.normalizeHost(hosts[i])
  {
    if hosts == [] then [] else [lib.normalizeHost(hosts[0])] + Normalized(lib, hosts[1..])
  }

  // All hosts of all sites, normalised.
  function AllHosts(lib: Library, sites: seq<Site>): seq<string> {
    if sites == [] then [] else AllHosts(lib, sites[..|sites| - 1]) + Normalized(lib, sites[|sites| - 1].hosts)
  }

  // Every site is valid, and neither site ids nor hosts are used twice.
  ghost predicate ValidConfig(lib: Library, cfg: AppConfig) {
    (forall i :: 0 <= i < |cfg.sites| ==> ValidSite(lib, cfg.sites[i])) && Distinct(SiteIds(cfg.sites)) &&
    Distinct(AllHosts(lib, cfg.sites))
  }

  lemma DistinctPrefix<T>(a: seq<T>, b: seq<T>)
    requires Distinct(a + b)
    ensures Distinct(a)
  {
    forall i, j | 0 <= i < j < |a|
      ensures a[i] != a[j]
    {
      assert (a + b)[i] == a[i] && (a + b)[j] == a[j];
    }
  }

  lemma DistinctSnoc<T>(a: seq<T>, x: T)
    requires Distinct(a)
    ensures Distinct(a + [x]) <==> x !in a
  {
    if x in a {
      var i :| 0 <= i < |a| && a[i] == x;
      assert (a + [x])[i] == (a + [x])[|a|];
    }
  }

  ghost function Elements<T>(s: seq<T>): set<T> {
    set x | x in s
  }

  // The check that a map of the ones seen so far makes: the next is among them, or all
  // up to it are distinct.
  lemma SeenStep<T>(all: seq<T>, n: nat, rest: seq<T>)
    requires n < |all| && Distinct(all[..n])
    ensures all[n] in Elements(all[..n]) ==> !Distinct(all) && !Distinct(all + rest)
    ensures all[n] !in Elements(all[..n]) ==> Distinct(all[..n + 1])
    ensures Elements(all[..n + 1]) == Elements(all[..n]) + {all[n]}
  {
    assert all[..n + 1] == all[..n] + [all[n]];
    DistinctSnoc(all[..n], all[n]);
    if all[n] in Elements(all[..n]) {
      if Distinct(all + rest) { DistinctPrefix(all, rest); }
      assert all == all[..n + 1] + all[n + 1..];
      if Distinct(all) { DistinctPrefix(all[..n + 1], all[n + 1..]); }
    }
  }

  method ValidateClauses(clauses: seq<MatchClause>) returns (valid: bool)
    ensures valid <==> ValidClauses(clauses)
  {
    hide ValidClause;
    if |clauses| == 0 {
      return false;
    }
    for index := 0 to |clauses|
      invariant index > 0 ==> clauses[0].logical == ""
      invariant forall i :: 1 <= i < index ==> clauses[i].logical in {"and", "or"}
      invariant forall i :: 0 <= i < index ==> ValidClause(clauses[i])
    {
      var clause := clauses[index];
      if index == 0 && clause.logical != "" {
        return false;
      }
      if index > 0 && clause.logical != "and" && clause.logical != "or" {
        return false;
      }
      if !ValidClause(clause) {
        return false;
      }
    }
    valid := true;
  }

  method ValidateRule(lib: Library, rule: Rule, isLast: bool) returns (valid: bool)
    ensures valid <==> ValidRule(lib, rule, isLast)
  {
    if Blank(rule.id) || Blank(rule.name) || !ValidActionOf(lib, rule.action) {
      return false;
    }
    if rule.spec.any {
      return isLast && rule.isSystem && rule.enabled;
    }
    if isLast {
      return false;
    }
    valid := ValidateClauses(rule.spec.clauses);
  }

  method ValidateRules(lib: Library, rules: seq<Rule>) returns (valid: bool)
    ensures valid <==> ValidRules(lib, rules)
  {
    hide ValidRule, Distinct, Elements;
    if |rules| == 0 {
      return false;
    }
    var ruleIds: set<string> := {};
    ghost var ids := RuleIds(rules);
    NothingSeen(ids);
    for index := 0 to |rules|
      invariant forall i :: 0 <= i < index ==> ValidRule(lib, rules[i], i == |rules| - 1)
      invariant ruleIds == Elements(ids[..index]) && Distinct(ids[..index])
    {
      var ok := ValidateRule(lib, rules[index], index == |rules| - 1);
      if !ok {
        return false;
      }
      SeenStep(ids, index, []);
      if rules[index].id in ruleIds {
        return false;
      }
      ruleIds := ruleIds + {rules[index].id};
    }
    assert ids[..|rules|] == ids;
    valid := true;
  }

  method ValidateSite(lib: Library, site: Site) returns (valid: bool)
    ensures valid <==> ValidSite(lib, site)
  {
    hide ValidRules, ValidUpstream;
    if Blank(site.id) || Blank(site.name) || |site.hosts| == 0 {
      return false;
    }
    for i := 0 to |site.hosts|
      invariant forall k :: 0 <= k < i ==> lib.normalizeHost(site.hosts[k]) != ""
    {
      if lib.normalizeHost(site.hosts[i]) == "" {
        return false;
      }
    }
    if !ValidUpstream(lib, site.upstream) {
      return false;
    }
    valid := ValidateRules(lib, site.rules);
  }

  lemma NothingSeen<T>(all: seq<T>)
    ensures Elements(all[..0]) == {} && Distinct(all[..0])
  {
  }

  // Claims the hosts of one site; fails on a host that is already owned.
  method ClaimHosts(lib: Library, owners: map<string, string>, site: Site, ghost before: seq<string>)
    returns (next: map<string, string>, ok: bool)
    requires Distinct(before) && owners.Keys == Elements(before)
    ensures ok <==> Distinct(before + Normalized(lib, site.hosts))
    ensures ok ==> next.Keys == Elements(before + Normalized(lib, site.hosts))
  {
    hide Distinct, Elements;
    next, ok := owners, true;
    ghost var mine := Normalized(lib, site.hosts);
    ghost var all := before + mine;
    assert all[..|before|] == before;
    for i := 0 to |site.hosts|
      invariant ok && Distinct(all[..|before| + i]) && next.Keys == Elements(all[..|before| + i])
    {
      var normalized := lib.normalizeHost(site.hosts[i]);
      ghost var n := |before| + i;
      assert normalized == all[n] && n + 1 == |before| + (i + 1);
      SeenStep(all, n, []);
      if normalized in next {
        return next, false;
      }
      next := next[normalized := site.id];
    }
    assert all[..|before| + |site.hosts|] == all;
  }

  lemma {:induction false} AllHostsPrefix(lib: Library, sites: seq<Site>, n: nat)
    requires n <= |sites| && Distinct(AllHosts(lib, sites))
    ensures Distinct(AllHosts(lib, sites[..n]))
    decreases |sites| - n
  {
    if n < |sites| {
      AllHostsPrefix(lib, sites, n + 1);
      assert sites[..n + 1][..n] == sites[..n];
      DistinctPrefix(AllHosts(lib, sites[..n]), Normalized(lib, sites[n].hosts));
    } else {
      assert sites[..n] == sites;
    }
  }

  // Validation accepts exactly the valid configurations.
  method Validate(lib: Library, cfg: AppConfig) returns (valid: bool)
    ensures valid <==> ValidConfig(lib, cfg)
  {
    hide ValidSite, Distinct, Elements, AllHosts, Normalized;
    var siteIds: set<string>, hostOwners: map<string, string> := {}, map[];
    ghost var ids := SiteIds(cfg.sites);
    NothingSeen(ids);
    NoHosts(lib, cfg.sites);
    for index := 0 to |cfg.sites|
      invariant forall i :: 0 <= i < index ==> ValidSite(lib, cfg.sites[i])
      invariant siteIds == Elements(ids[..index]) && Distinct(ids[..index])
      invariant Distinct(AllHosts(lib, cfg.sites[..index])) &&
                hostOwners.Keys == Elements(AllHosts(lib, cfg.sites[..index]))
    {
      var site := cfg.sites[index];
      var ok := ValidateSite(lib, site);
      if !ok {
        return false;
      }
      SeenStep(ids, index, []);
      if site.id in siteIds {
        return false;
      }
      siteIds := siteIds + {site.id};
      AllHostsSnoc(lib, cfg.sites, index);
      hostOwners, ok := ClaimHosts(lib, hostOwners, site, AllHosts(lib, cfg.sites[..index]));
      if !ok {
        if Distinct(AllHosts(lib, cfg.sites)) { AllHostsPrefix(lib, cfg.sites, index + 1); }
        return false;
      }
    }
    assert ids[..|cfg.sites|] == ids && cfg.sites[..|cfg.sites|] == cfg.sites;
    valid := true;
  }

  lemma NoHosts(lib: Library, sites: seq<Site>)
    ensures Distinct(AllHosts(lib, sites[..0])) && Elements(AllHosts(lib, sites[..0])) == {}
  {
  }

  lemma AllHostsSnoc(lib: Library, sites: seq<Site>, n: nat)
    requires n < |sites|
    ensures AllHosts(lib, sites[..n + 1]) == AllHosts(lib, sites[..n]) + Normalized(lib, sites[n].hosts)
  {
    assert sites[..n + 1][..n] == sites[..n];
  }
}
