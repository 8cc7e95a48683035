/** The data plane's snapshot: compiled sites, the host index, and rule matching. */
module Runtime {
  import opened Text
  import opened Headers
  import opened Freshness
  import opened Policies
  import opened Config
  import opened Grouping

  datatype CompiledRule = CompiledRule(source: Rule, ttl: Option<int>, staleIfError: Option<int>, optimistic: bool)

  datatype CompiledSite = CompiledSite(source: Site, upstream: ParsedUrl, upstreamHost: string, upstreamMode: string,
                                       rules: seq<CompiledRule>)

  datatype Snapshot = Snapshot(version: string, sites: seq<CompiledSite>, hosts: map<string, CompiledSite>)

  datatype HttpRequest = HttpRequest(host: string, path: string, verb: string, header: Header)

  function CompileRule(lib: Library, rule: Rule): Option<CompiledRule> {
    match (ParseOptionalDuration(lib.parseDuration, rule.action.ttl),
           ParseOptionalDuration(lib.parseDuration, rule.action.staleIfError))
    case (Some(ttl), Some(stale)) => Some(CompiledRule(rule, ttl, stale, rule.action.optimistic))
    case _ => None
  }

  // A compiled rule has the durations its action names, parsed, and its optimism.
  ghost predicate RuleCompiled(lib: Library, rule: Rule, c: CompiledRule) {
    c.source == rule && c.optimistic == rule.action.optimistic &&
    (c.ttl.Some? <==> rule.action.ttl != "") &&
    (c.ttl.Some? ==> c.ttl == lib.parseDuration(rule.action.ttl) && c.ttl.value > 0) &&
    (c.staleIfError.Some? <==> rule.action.staleIfError != "") &&
    (c.staleIfError.Some? ==> c.staleIfError == lib.parseDuration(rule.action.staleIfError) && c.staleIfError.value > 0)
  }

  lemma RuleCompiledIff(lib: Library, rule: Rule, c: CompiledRule)
    ensures CompileRule(lib, rule) == Some(c) <==> RuleCompiled(lib, rule, c)
  {
  }

  // What the policy of a compiled rule says, in terms of the rule.
  lemma CompiledPolicyIs(lib: Library, siteId: string, rule: Rule, c: CompiledRule)
    requires RuleCompiled(lib, rule, c)
    ensures var p, a := BuildPolicy(siteId, rule.id, rule.action, c.ttl, c.staleIfError), rule.action;
            p.siteId == siteId && p.ruleId == rule.id && p.mode == ModeOf(a.mode) &&
            (p.hasTtl <==> a.ttl != "") && (p.hasTtl ==> Some(p.ttl) == lib.parseDuration(a.ttl)) &&
            (!p.hasTtl ==> p.ttl == 0) && (!p.hasStaleIfError ==> p.staleIfError == 0) &&
            (p.hasStaleIfError <==> a.staleIfError != "") &&
            (p.hasStaleIfError ==> Some(p.staleIfError) == lib.parseDuration(a.staleIfError)) &&
            p.optimistic == a.optimistic && p.optimisticMaxStale == 3_600_000_000_000 &&
            p.policyTag == rule.id + "|" + a.mode + "|" + (if a.optimistic then "true" else "false") + "|" + a.ttl +
                           "|" + a.staleIfError
  {
  }

  // The compiled rules, in order; none if one does not compile.
  function CompiledRules(lib: Library, rules: seq<Rule>): Option<seq<CompiledRule>> {
    if rules == [] then Some([])
    else
      var n := |rules| - 1;
      match (CompiledRules(lib, rules[..n]), CompileRule(lib, rules[n]))
      case (Some(before), Some(last)) => Some(before + [last])
      case _ => None
  }

  function CompiledOf(lib: Library, site: Site): Option<CompiledSite> {
    match (lib.parseUrl(site.upstream.url), CompiledRules(lib, site.rules))
    case (Some(url), Some(rules)) =>
      var mode := if site.upstream.hostMode == "" then "follow_origin" else site.upstream.hostMode;
      Some(CompiledSite(site, url, if mode == "custom" then site.upstream.host else url.host, mode, rules))
    case _ => None
  }

  // A compiled site has the parsed address of its upstream, the host its host mode names,
  // and its rules, each compiled in its place.
  ghost predicate SiteCompiled(lib: Library, site: Site, c: CompiledSite) {
    c.source == site && lib.parseUrl(site.upstream.url) == Some(c.upstream) &&
    c.upstreamMode == (if site.upstream.hostMode == "" then "follow_origin" else site.upstream.hostMode) &&
    (c.upstreamMode == "custom" ==> c.upstreamHost == site.upstream.host) &&
    (c.upstreamMode != "custom" ==> c.upstreamHost == c.upstream.host) &&
    RulesCompiled(lib, site.rules, c.rules)
  }

  ghost predicate RulesCompiled(lib: Library, rules: seq<Rule>, compiled: seq<CompiledRule>) {
    |compiled| == |rules| && forall i :: 0 <= i < |rules| ==> RuleCompiled(lib, rules[i], compiled[i])
  }

  lemma {:induction false} RulesCompiledIff(lib: Library, rules: seq<Rule>, compiled: seq<CompiledRule>)
    ensures CompiledRules(lib, rules) == Some(compiled) <==> RulesCompiled(lib, rules, compiled)
    decreases |rules|
  {
    hide RuleCompiled, CompileRule;
    if rules != [] {
      var n := |rules| - 1;
      if compiled != [] {
        var m := |compiled| - 1;
        RulesCompiledIff(lib, rules[..n], compiled[..m]);
        RuleCompiledIff(lib, rules[n], compiled[m]);
        assert compiled == compiled[..m] + [compiled[m]];
        if RulesCompiled(lib, rules, compiled) {
          assert forall i :: 0 <= i < n ==> rules[..n][i] == rules[i] && compiled[..m][i] == compiled[i];
        }
        if CompiledRules(lib, rules) == Some(compiled) {
          assert CompiledRules(lib, rules[..n]).value == compiled[..m];
        }
      }
    }
  }

  lemma SiteCompiledIff(lib: Library, site: Site, c: CompiledSite)
    ensures CompiledOf(lib, site) == Some(c) <==> SiteCompiled(lib, site, c)
  {
    hide CompiledRules, RulesCompiled;
    RulesCompiledIff(lib, site.rules, c.rules);
  }

  method CompileSite(lib: Library, site: Site) returns (compiled: Option<CompiledSite>)
    ensures compiled == CompiledOf(lib, site)
    ensures compiled.Some? ==> SiteCompiled(lib, site, compiled.value)
    ensures compiled.None? ==> forall c :: !SiteCompiled(lib, site, c)
  {
    hide CompileRule, RulesCompiled;
    var upstream := lib.parseUrl(site.upstream.url);
    if upstream.None? {
      AllSitesCompiledIff(lib, site);
      return None;
    }
    var mode := site.upstream.hostMode;
    if mode == "" {
      mode := "follow_origin";
    }
    var host := if mode == "custom" then site.upstream.host else upstream.value.host;
    var rules: seq<CompiledRule> := [];
    for n := 0 to |site.rules|
      invariant CompiledRules(lib, site.rules[..n]) == Some(rules)
    {
      var rule := CompileRule(lib, site.rules[n]);
      assert site.rules[..n + 1][..n] == site.rules[..n];
      if rule.None? {
        NoneCompiled(lib, site.rules, n + 1);
        AllSitesCompiledIff(lib, site);
        return None;
      }
      rules := rules + [rule.value];
    }
    assert site.rules[..|site.rules|] == site.rules;
    compiled := Some(CompiledSite(site, upstream.value, host, mode, rules));
    SiteCompiledIff(lib, site, compiled.value);
  }

  lemma AllSitesCompiledIff(lib: Library, site: Site)
    ensures forall c :: CompiledOf(lib, site) == Some(c) <==> SiteCompiled(lib, site, c)
  {
    hide CompiledOf, SiteCompiled;
    forall c
      ensures CompiledOf(lib, site) == Some(c) <==> SiteCompiled(lib, site, c)
    {
      SiteCompiledIff(lib, site, c);
    }
  }

  lemma {:induction false} NoneCompiled(lib: Library, rules: seq<Rule>, n: nat)
    requires n <= |rules| && CompiledRules(lib, rules[..n]).None?
    ensures CompiledRules(lib, rules).None?
    decreases |rules| - n
  {
    if n < |rules| {
      assert rules[..n + 1][..n] == rules[..n];
      NoneCompiled(lib, rules, n + 1);
    } else {
      assert rules[..n] == rules;
    }
  }

  // The compiled sites, in order; none if one does not compile.
  function CompiledSites(lib: Library, sites: seq<Site>): Option<seq<CompiledSite>> {
    if sites == [] then Some([])
    else
      var n := |sites| - 1;
      match (CompiledSites(lib, sites[..n]), CompiledOf(lib, sites[n]))
      case (Some(before), Some(last)) => Some(before + [last])
      case _ => None
  }

  function Indexed(index: map<string, CompiledSite>, hosts: seq<string>, site: CompiledSite): map<string, CompiledSite>
    decreases |hosts|
  {
    if hosts == [] then index else Indexed(index[hosts[0] := site], hosts[1..], site)
  }

  function HostIndex(lib: Library, sites: seq<CompiledSite>): map<string, CompiledSite> {
    if sites == [] then map[]
    else Indexed(HostIndex(lib, sites[..|sites| - 1]), Normalized(lib, sites[|sites| - 1].source.hosts),
                 sites[|sites| - 1])
  }

  method IndexHosts(lib: Library, index: map<string, CompiledSite>, site: CompiledSite)
    returns (r: map<string, CompiledSite>)
    ensures r == Indexed(index, Normalized(lib, site.source.hosts), site)
  {
    r := index;
    var hosts := site.source.hosts;
    while hosts != []
      invariant Indexed(r, Normalized(lib, hosts), site) == Indexed(index, Normalized(lib, site.source.hosts), site)
      decreases |hosts|
    {
      assert Normalized(lib, hosts)[1..] == Normalized(lib, hosts[1..]);
      r := r[lib.normalizeHost(hosts[0]) := site];
      hosts := hosts[1..];
    }
  }

  // version stands for the time of compilation.
  method Compile(lib: Library, cfg: AppConfig, version: string) returns (r: Option<Snapshot>)
    ensures r.Some? <==> CompiledSites(lib, cfg.sites).Some?
    ensures r.Some? ==> r.value.sites == CompiledSites(lib, cfg.sites).value &&
                        r.value.hosts == HostIndex(lib, r.value.sites) && r.value.version == version
    ensures r.Some? ==> Reflects(lib, cfg, r.value)
  {
    hide CompiledOf, Indexed, Reflects, SiteCompiled;
    var sites: seq<CompiledSite>, hosts: map<string, CompiledSite> := [], map[];
    for n := 0 to |cfg.sites|
      invariant CompiledSites(lib, cfg.sites[..n]) == Some(sites) && hosts == HostIndex(lib, sites)
    {
      var site := CompileSite(lib, cfg.sites[n]);
      assert cfg.sites[..n + 1][..n] == cfg.sites[..n];
      if site.None? {
        NoneCompiledSites(lib, cfg.sites, n + 1);
        return None;
      }
      CompiledSource(lib, cfg.sites[n]);
      assert (sites + [site.value])[..|sites|] == sites;
      sites := sites + [site.value];
      hosts := IndexHosts(lib, hosts, site.value);
    }
    assert cfg.sites[..|cfg.sites|] == cfg.sites;
    r := Some(Snapshot(version, sites, hosts));
    CompiledReflects(lib, cfg, r.value);
  }

  lemma {:induction false} SitesCompiledIs(lib: Library, sites: seq<Site>)
    requires CompiledSites(lib, sites).Some?
    ensures var compiled := CompiledSites(lib, sites).value;
            |compiled| == |sites| && forall i :: 0 <= i < |sites| ==> SiteCompiled(lib, sites[i], compiled[i])
    decreases |sites|
  {
    hide CompiledOf, SiteCompiled;
    if sites != [] {
      var n := |sites| - 1;
      SitesCompiledIs(lib, sites[..n]);
      SiteCompiledIff(lib, sites[n], CompiledOf(lib, sites[n]).value);
    }
  }

  // The snapshot holds the configuration's sites, compiled in their places, and finds a
  // host's site, the last one that owns it.
  ghost predicate Reflects(lib: Library, cfg: AppConfig, live: Snapshot) {
    |live.sites| == |cfg.sites| &&
    (forall i :: 0 <= i < |cfg.sites| ==> SiteCompiled(lib, cfg.sites[i], live.sites[i])) &&
    (forall host :: host in live.hosts <==> exists k :: 0 <= k < |cfg.sites| && Owns(lib, cfg.sites[k], host)) &&
    forall host, k :: 0 <= k < |cfg.sites| && Owns(lib, cfg.sites[k], host) &&
                      (forall j :: k < j < |cfg.sites| ==> !Owns(lib, cfg.sites[j], host)) ==>
                        host in live.hosts && live.hosts[host] == live.sites[k]
  }

  lemma CompiledReflects(lib: Library, cfg: AppConfig, live: Snapshot)
    requires CompiledSites(lib, cfg.sites) == Some(live.sites) && live.hosts == HostIndex(lib, live.sites)
    ensures Reflects(lib, cfg, live)
  {
    hide CompiledSites, HostIndex, Owns;
    SitesCompiledIs(lib, cfg.sites);
    forall host
      ensures host in live.hosts <==> exists k :: 0 <= k < |cfg.sites| && Owns(lib, cfg.sites[k], host)
    {
      HostIndexOf(lib, cfg.sites, live.sites, host);
    }
    forall host, k | 0 <= k < |cfg.sites| && Owns(lib, cfg.sites[k], host) &&
                     forall j :: k < j < |cfg.sites| ==> !Owns(lib, cfg.sites[j], host)
      ensures host in live.hosts && live.hosts[host] == live.sites[k]
    {
      LastOwnerFound(lib, live.sites, host, k);
    }
  }

  lemma {:induction false} LastOwnerFound(lib: Library, sites: seq<CompiledSite>, host: string, k: nat)
    requires k < |sites| && Owns(lib, sites[k].source, host)
    requires forall j :: k < j < |sites| ==> !Owns(lib, sites[j].source, host)
    ensures host in HostIndex(lib, sites) && HostIndex(lib, sites)[host] == sites[k]
    decreases |sites|
  {
    hide Owns;
    var n := |sites| - 1;
    OwnsNormalized(lib, sites[n].source, host);
    IndexedAt(HostIndex(lib, sites[..n]), Normalized(lib, sites[n].source.hosts), sites[n], host);
    if k < n { LastOwnerFound(lib, sites[..n], host, k); }
  }

  lemma CompiledSource(lib: Library, site: Site)
    ensures CompiledOf(lib, site).Some? ==> CompiledOf(lib, site).value.source == site
  {
  }

  lemma {:induction false} NoneCompiledSites(lib: Library, sites: seq<Site>, n: nat)
    requires n <= |sites| && CompiledSites(lib, sites[..n]).None?
    ensures CompiledSites(lib, sites).None?
    decreases |sites| - n
  {
    if n < |sites| {
      assert sites[..n + 1][..n] == sites[..n];
      NoneCompiledSites(lib, sites, n + 1);
    } else {
      assert sites[..n] == sites;
    }
  }

  lemma {:induction false} ValidRulesCompile(lib: Library, rules: seq<Rule>)
    requires forall i :: 0 <= i < |rules| ==> ValidActionOf(lib, rules[i].action)
    ensures CompiledRules(lib, rules).Some? && |CompiledRules(lib, rules).value| == |rules|
    ensures forall i :: 0 <= i < |rules| ==> CompiledRules(lib, rules).value[i].source == rules[i]
    decreases |rules|
  {
    if rules != [] { ValidRulesCompile(lib, rules[..|rules| - 1]); }
  }

  lemma ValidSiteCompiles(lib: Library, site: Site)
    requires ValidSite(lib, site)
    ensures CompiledOf(lib, site).Some? && CompiledOf(lib, site).value.source == site
    ensures var rules := CompiledOf(lib, site).value.rules;
            |rules| == |site.rules| && forall i :: 0 <= i < |rules| ==> rules[i].source == site.rules[i]
  {
    assert forall i :: 0 <= i < |site.rules| ==> ValidRule(lib, site.rules[i], i == |site.rules| - 1);
    ValidRulesCompile(lib, site.rules);
  }

  // Whatever validates, compiles: in order, site by site.
  lemma {:induction false} ValidSitesCompile(lib: Library, sites: seq<Site>)
    requires forall i :: 0 <= i < |sites| ==> ValidSite(lib, sites[i])
    ensures CompiledSites(lib, sites).Some? && |CompiledSites(lib, sites).value| == |sites|
    ensures forall i :: 0 <= i < |sites| ==> CompiledOf(lib, sites[i]) == Some(CompiledSites(lib, sites).value[i])
    decreases |sites|
  {
    hide ValidSite, CompiledOf;
    if sites != [] {
      var n := |sites| - 1;
      ValidSitesCompile(lib, sites[..n]);
      ValidSiteCompiles(lib, sites[n]);
      assert forall i :: 0 <= i < n ==> sites[..n][i] == sites[i];
    }
  }

  // The site owns the host under one of its names.
  ghost predicate Owns(lib: Library, site: Site, host: string) {
    exists i :: 0 <= i < |site.hosts| && lib.normalizeHost(site.hosts[i]) == host
  }

  lemma {:induction false} IndexedAt(index: map<string, CompiledSite>, hosts: seq<string>, site: CompiledSite,
                                     host: string)
    ensures var r := Indexed(index, hosts, site);
            if host in hosts then host in r && r[host] == site else (host in r <==> host in index) &&
                                                                    (host in index ==> r[host] == index[host])
    decreases |hosts|
  {
    if hosts != [] { IndexedAt(index[hosts[0] := site], hosts[1..], site, host); }
  }

  lemma OwnsNormalized(lib: Library, site: Site, host: string)
    ensures Owns(lib, site, host) <==> host in Normalized(lib, site.hosts)
  {
    var all := Normalized(lib, site.hosts);
    if Owns(lib, site, host) {
      var i :| 0 <= i < |site.hosts| && lib.normalizeHost(site.hosts[i]) == host;
      assert all[i] == host;
    }
    if host in all {
      var i :| 0 <= i < |all| && all[i] == host;
      assert lib.normalizeHost(site.hosts[i]) == host;
    }
  }

  // The index holds the last site that owns a host, if there is one.
  lemma {:induction false} HostIndexAt(lib: Library, sites: seq<CompiledSite>, host: string)
    ensures host in HostIndex(lib, sites) <==> exists k :: 0 <= k < |sites| && Owns(lib, sites[k].source, host)
    ensures host in HostIndex(lib, sites) ==>
              exists k :: 0 <= k < |sites| && Owns(lib, sites[k].source, host) &&
                          HostIndex(lib, sites)[host] == sites[k]
    decreases |sites|
  {
    hide Owns;
    if sites != [] {
      var n := |sites| - 1;
      var before := sites[..n];
      HostIndexAt(lib, before, host);
      OwnsNormalized(lib, sites[n].source, host);
      IndexedAt(HostIndex(lib, before), Normalized(lib, sites[n].source.hosts), sites[n], host);
      assert forall k :: 0 <= k < n ==> before[k] == sites[k];
      if host !in Normalized(lib, sites[n].source.hosts) && host in HostIndex(lib, sites) {
        var k :| 0 <= k < |before| && Owns(lib, before[k].source, host) && HostIndex(lib, before)[host] == before[k];
        assert Owns(lib, sites[k].source, host) && HostIndex(lib, sites)[host] == sites[k];
      }
    }
  }

  lemma {:induction false} OwnersUnique(lib: Library, sites: seq<Site>, i: nat, j: nat, host: string)
    requires Distinct(AllHosts(lib, sites)) && i < j < |sites|
    ensures !(Owns(lib, sites[i], host) && Owns(lib, sites[j], host))
  {
    AllHostsPrefix(lib, sites, j + 1);
    AllHostsSnoc(lib, sites, j);
    if Owns(lib, sites[i], host) && Owns(lib, sites[j], host) {
      HostsContain(lib, sites[..j], i, host);
      OwnsNormalized(lib, sites[j], host);
      DistinctHalves(AllHosts(lib, sites[..j]), Normalized(lib, sites[j].hosts));
    }
  }

  lemma DistinctHalves<T>(a: seq<T>, b: seq<T>)
    requires Distinct(a + b)
    ensures forall x :: x in a ==> x !in b
  {
    forall i, j | 0 <= i < |a| && 0 <= j < |b|
      ensures a[i] != b[j]
    {
      assert (a + b)[i] == a[i] && (a + b)[|a| + j] == b[j];
    }
  }

  lemma {:induction false} HostsContain(lib: Library, sites: seq<Site>, i: nat, host: string)
    requires i < |sites| && Owns(lib, sites[i], host)
    ensures host in AllHosts(lib, sites)
    decreases |sites|
  {
    if i == |sites| - 1 {
      OwnsNormalized(lib, sites[i], host);
    } else {
      HostsContain(lib, sites[..|sites| - 1], i, host);
    }
  }

  method SiteByHost(lib: Library, snapshot: Snapshot, host: string) returns (site: Option<CompiledSite>)
    ensures site.Some? <==> lib.normalizeHost(host) in snapshot.hosts
    ensures site.Some? ==> site.value == snapshot.hosts[lib.normalizeHost(host)]
  {
    var normalized := lib.normalizeHost(host);
    site := if normalized in snapshot.hosts then Some(snapshot.hosts[normalized]) else None;
  }

  // The index in terms of the sites it was built from.
  lemma HostIndexOf(lib: Library, sources: seq<Site>, sites: seq<CompiledSite>, host: string)
    requires |sites| == |sources| && forall i :: 0 <= i < |sites| ==> sites[i].source == sources[i]
    ensures host in HostIndex(lib, sites) <==> exists k :: 0 <= k < |sources| && Owns(lib, sources[k], host)
    ensures host in HostIndex(lib, sites) ==> exists k :: 0 <= k < |sources| && Owns(lib, sources[k], host) &&
                                                          HostIndex(lib, sites)[host] == sites[k]
  {
    hide Owns, HostIndex;
    HostIndexAt(lib, sites, host);
    if host in HostIndex(lib, sites) {
      var k :| 0 <= k < |sites| && Owns(lib, sites[k].source, host) && HostIndex(lib, sites)[host] == sites[k];
      assert Owns(lib, sources[k], host);
    }
    if k :| 0 <= k < |sources| && Owns(lib, sources[k], host) {
      assert Owns(lib, sites[k].source, host);
    }
  }

  // In a valid configuration the host index finds exactly the one site that owns the
  // host, as a search through all sites would.
  lemma HostLookupIsSearch(lib: Library, cfg: AppConfig, host: string, k: nat)
    requires ValidConfig(lib, cfg) && k < |cfg.sites|
    ensures CompiledSites(lib, cfg.sites).Some? && |CompiledSites(lib, cfg.sites).value| == |cfg.sites|
    ensures var sites := CompiledSites(lib, cfg.sites).value;
            Owns(lib, cfg.sites[k], host) <==> host in HostIndex(lib, sites) && HostIndex(lib, sites)[host] == sites[k]
    ensures var sites := CompiledSites(lib, cfg.sites).value;
            host in HostIndex(lib, sites) <==> exists i :: 0 <= i < |cfg.sites| && Owns(lib, cfg.sites[i], host)
  {
    hide ValidSite, CompiledOf, Owns, Distinct, HostIndex, CompiledSites;
    ValidSitesCompile(lib, cfg.sites);
    var sites := CompiledSites(lib, cfg.sites).value;
    forall i | 0 <= i < |sites|
      ensures sites[i].source == cfg.sites[i]
    {
      CompiledSource(lib, cfg.sites[i]);
    }
    HostIndexOf(lib, cfg.sites, sites, host);
    if host in HostIndex(lib, sites) {
      var i :| 0 <= i < |cfg.sites| && Owns(lib, cfg.sites[i], host) && HostIndex(lib, sites)[host] == sites[i];
      if i < k { OwnersUnique(lib, cfg.sites, i, k, host); }
      if k < i { OwnersUnique(lib, cfg.sites, k, i, host); }
      assert sites[i] == sites[k] ==> cfg.sites[i] == cfg.sites[k];
    }
  }

  predicate Contains(s: string, part: string) {
    exists i :: 0 <= i <= |s| && part <= s[i..]
  }

  predicate StartsWith(s: string, prefix: string) {
    prefix <= s
  }

  predicate PathMatchesGlob(lib: Library, path: string, pattern: string) {
    lib.glob(pattern, if StartsWith(path, "/") then path[1..] else path) || lib.glob(pattern, path)
  }

  // Letter case folds over ASCII only.
  predicate MatchesClause(lib: Library, r: HttpRequest, c: MatchClause) {
    match c.field
    case "hostname" =>
      (var host, value := Lower(lib.normalizeHost(r.host)), Lower(TrimSpace(c.value));
       match c.operator
       case "equals" => host == value
       case "not_equals" => host != value
       case "contains" => Contains(host, value)
       case "not_contains" => !Contains(host, value)
       case "starts_with" => StartsWith(host, value)
       case "not_starts_with" => !StartsWith(host, value)
       case _ => false)
    case "uri_path" =>
      (match c.operator
       case "equals" => r.path == c.value
       case "not_equals" => r.path != c.value
       case "contains" => Contains(r.path, c.value)
       case "not_contains" => !Contains(r.path, c.value)
       case "starts_with" => StartsWith(r.path, c.value)
       case "not_starts_with" => !StartsWith(r.path, c.value)
       case "matches_glob" => PathMatchesGlob(lib, r.path, c.value)
       case "not_matches_glob" => !PathMatchesGlob(lib, r.path, c.value)
       case _ => false)
    case "method" =>
      (match c.operator
       case "equals" => Lower(r.verb) == Lower(TrimSpace(c.value))
       case "not_equals" => Lower(r.verb) != Lower(TrimSpace(c.value))
       case _ => false)
    case "request_header" =>
      (var value := Get(r.header, CanonicalKey(c.name));
       match c.operator
       case "exists" => value != ""
       case "not_exists" => value == ""
       case "equals" => value == c.value
       case "not_equals" => value != c.value
       case "contains" => Contains(value, c.value)
       case "not_contains" => !Contains(value, c.value)
       case _ => false)
    case _ => false
  }

  // The text a clause looks at, and what it compares it with: host names and methods
  // without regard to case, and trimmed; paths and headers as they are.
  ghost function Subject(lib: Library, r: HttpRequest, c: MatchClause): string {
    match c.field
    case "hostname" => Lower(lib.normalizeHost(r.host))
    case "method" => Lower(r.verb)
    case "uri_path" => r.path
    case _ => Get(r.header, CanonicalKey(c.name))
  }

  ghost function Wanted(c: MatchClause): string {
    if c.field in {"hostname", "method"} then Lower(TrimSpace(c.value)) else c.value
  }

  // A pattern is tried on the path with and without its first slash.
  ghost predicate Fits(lib: Library, operator: string, text: string, wanted: string) {
    match operator
    case "equals" => text == wanted
    case "contains" => exists before: string, after: string :: text == before + wanted + after
    case "starts_with" => exists after: string :: text == wanted + after
    case "matches_glob" => lib.glob(wanted, text) || exists rest: string :: text == "/" + rest && lib.glob(wanted, rest)
    case "exists" => |text| > 0
    case _ => false
  }

  // What a clause means: its comparison, or the complement of it; one its field does not
  // have never holds.
  ghost predicate Means(lib: Library, r: HttpRequest, c: MatchClause, operator: string) {
    (Compares(c.field, operator) && c.operator == operator ==>
       (MatchesClause(lib, r, c) <==> Fits(lib, operator, Subject(lib, r, c), Wanted(c)))) &&
    (Compares(c.field, operator) && c.operator == "not_" + operator ==>
       (MatchesClause(lib, r, c) <==> !Fits(lib, operator, Subject(lib, r, c), Wanted(c)))) &&
    (!HasOperator(c.field, c.operator) ==> !MatchesClause(lib, r, c))
  }

  lemma ClauseMeans(lib: Library, r: HttpRequest, c: MatchClause, operator: string)
    ensures Means(lib, r, c, operator)
  {
    hide Means;
    match c.field
    case "hostname" => HostClauses(lib, r, c, operator);
    case "uri_path" => PathClauses(lib, r, c, operator);
    case "method" => MethodClauses(lib, r, c, operator);
    case "request_header" => HeaderClauses(lib, r, c, operator);
    case _ => OtherClauses(lib, r, c, operator);
  }

  lemma ContainsIs(s: string, part: string)
    ensures Contains(s, part) <==> exists before: string, after: string :: s == before + part + after
    ensures StartsWith(s, part) <==> exists after: string :: s == part + after
  {
    if Contains(s, part) {
      var i :| 0 <= i <= |s| && part <= s[i..];
      assert s == s[..i] + part + s[i..][|part|..];
    }
    if before: string, after: string :| s == before + part + after {
      assert s[|before|..] == part + after;
      assert part <= s[|before|..];
    }
    if StartsWith(s, part) { assert s == part + s[|part|..]; }
  }

  lemma GlobIs(lib: Library, path: string, pattern: string)
    ensures PathMatchesGlob(lib, path, pattern) <==>
            lib.glob(pattern, path) || exists rest: string :: path == "/" + rest && lib.glob(pattern, rest)
  {
    if StartsWith(path, "/") { assert path == "/" + path[1..]; }
    assert forall rest: string :: ("/" + rest)[1..] == rest;
  }

  lemma HostClauses(lib: Library, r: HttpRequest, c: MatchClause, operator: string)
    requires c.field == "hostname"
    ensures Means(lib, r, c, operator)
  {
    hide Lower, TrimSpace, Contains, StartsWith, HasOperator;
    Negations();
    HostOperators(c.operator);
    ContainsIs(Subject(lib, r, c), Wanted(c));
  }

  lemma PathClauses(lib: Library, r: HttpRequest, c: MatchClause, operator: string)
    requires c.field == "uri_path"
    ensures Means(lib, r, c, operator)
  {
    hide Contains, StartsWith, PathMatchesGlob, HasOperator;
    Negations();
    PathOperators(c.operator);
    ContainsIs(r.path, c.value);
    GlobIs(lib, r.path, c.value);
  }

  lemma MethodClauses(lib: Library, r: HttpRequest, c: MatchClause, operator: string)
    requires c.field == "method"
    ensures Means(lib, r, c, operator)
  {
    hide Lower, TrimSpace, HasOperator;
    Negations();
    MethodOperators(c.operator);
  }

  lemma HeaderClauses(lib: Library, r: HttpRequest, c: MatchClause, operator: string)
    requires c.field == "request_header"
    ensures Means(lib, r, c, operator)
  {
    hide Contains, Get, CanonicalKey, HasOperator;
    Negations();
    HeaderOperators(c.operator);
    ContainsIs(Subject(lib, r, c), Wanted(c));
  }

  lemma OtherClauses(lib: Library, r: HttpRequest, c: MatchClause, operator: string)
    requires c.field !in {"hostname", "uri_path", "method", "request_header"}
    ensures Means(lib, r, c, operator)
  {
  }

  function ClauseHolds(lib: Library, r: HttpRequest): MatchClause -> bool {
    (c: MatchClause) => MatchesClause(lib, r, c)
  }

  predicate OpensBlock(c: MatchClause) {
    c.logical == "or"
  }

  // The displayed reading: a rule matches if it catches all, or some block of its
  // clauses holds.
  ghost predicate RuleMatches(lib: Library, spec: MatchSpec, r: HttpRequest) {
    spec.any || AnyBlockTrue(Groups(spec.clauses, OpensBlock), ClauseHolds(lib, r))
  }

  // The one-pass evaluation with two accumulators is the displayed disjunction of blocks.
  method MatchesRule(lib: Library, spec: MatchSpec, r: HttpRequest) returns (matched: bool)
    ensures matched <==> RuleMatches(lib, spec, r)
  {
    hide Groups, AnyBlockTrue, AllTrue, Push, MatchesClause;
    if spec.any {
      return true;
    }
    ghost var holds := ClauseHolds(lib, r);
    if |spec.clauses| == 0 {
      NoBlocks(spec.clauses, holds);
      return false;
    }
    var clauses := spec.clauses;
    var groupResult, result := MatchesClause(lib, r, clauses[0]), false;
    FirstBlock(clauses, OpensBlock, holds);
    for n := 1 to |clauses|
      invariant Groups(clauses[..n], OpensBlock) != []
      invariant var groups := Groups(clauses[..n], OpensBlock);
                groupResult == AllTrue(groups[|groups| - 1], holds) &&
                result == AnyBlockTrue(groups[..|groups| - 1], holds)
    {
      GroupsSnoc(clauses, n, OpensBlock);
      PushTruth(Groups(clauses[..n], OpensBlock), clauses[n], OpensBlock(clauses[n]), holds);
      if clauses[n].logical == "or" {
        result := result || groupResult;
        groupResult := MatchesClause(lib, r, clauses[n]);
      } else {
        groupResult := groupResult && MatchesClause(lib, r, clauses[n]);
      }
    }
    assert clauses[..|clauses|] == clauses;
    LastOrEarlier(Groups(clauses, OpensBlock), holds);
    matched := result || groupResult;
  }

  lemma NoBlocks(clauses: seq<MatchClause>, holds: MatchClause -> bool)
    requires clauses == []
    ensures !AnyBlockTrue(Groups(clauses, OpensBlock), holds)
  {
  }

  ghost predicate Applies(lib: Library, rule: CompiledRule, r: HttpRequest) {
    rule.source.enabled && RuleMatches(lib, rule.source.spec, r)
  }

  // The first enabled rule that matches.
  method MatchRule(lib: Library, site: CompiledSite, r: HttpRequest) returns (found: Option<nat>)
    ensures found.Some? ==>
              found.value < |site.rules| && Applies(lib, site.rules[found.value], r) &&
              forall i :: 0 <= i < found.value ==> !Applies(lib, site.rules[i], r)
    ensures found.None? ==> forall i :: 0 <= i < |site.rules| ==> !Applies(lib, site.rules[i], r)
  {
    hide RuleMatches;
    for index := 0 to |site.rules|
      invariant forall i :: 0 <= i < index ==> !Applies(lib, site.rules[i], r)
    {
      if !site.rules[index].source.enabled {
        continue;
      }
      var matched := MatchesRule(lib, site.rules[index].source.spec, r);
      if matched {
        return Some(index);
      }
    }
    found := None;
  }

  // A compiled valid site routes every request: its last rule always applies.
  lemma ValidSiteRoutes(lib: Library, site: Site, r: HttpRequest)
    requires ValidSite(lib, site)
    ensures CompiledOf(lib, site).Some? && CompiledOf(lib, site).value.rules != []
    ensures var rules := CompiledOf(lib, site).value.rules; Applies(lib, rules[|rules| - 1], r)
  {
    ValidSiteCompiles(lib, site);
    var n := |site.rules| - 1;
    assert ValidRule(lib, site.rules[n], n == |site.rules| - 1);
  }
}
