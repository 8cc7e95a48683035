/** The control-plane service: a transactional configuration with a live snapshot. */
module ServiceModel {
  import opened Text
  import opened Policies
  import opened Config
  import opened Runtime

  datatype SiteInput = SiteInput(id: string, name: string, enabled: bool, hosts: seq<string>, upstream: Upstream)

  function SiteIndex(sites: seq<Site>, id: string): (r: Option<nat>)
    ensures r.Some? ==> r.value < |sites| && sites[r.value].id == id && forall i :: 0 <= i < r.value ==>
              sites[i].id != id
    ensures r.None? ==> forall i :: 0 <= i < |sites| ==> sites[i].id != id
  {
    if sites == [] then None
    else if sites[0].id == id then Some(0)
    else
      match SiteIndex(sites[1..], id)
      case None => None
      case Some(k) => Some(k + 1)
  }

  function RuleIndex(rules: seq<Rule>, id: string): (r: Option<nat>)
    ensures r.Some? ==> r.value < |rules| && rules[r.value].id == id && forall i :: 0 <= i < r.value ==>
              rules[i].id != id
    ensures r.None? ==> forall i :: 0 <= i < |rules| ==> rules[i].id != id
  {
    if rules == [] then None
    else if rules[0].id == id then Some(0)
    else
      match RuleIndex(rules[1..], id)
      case None => None
      case Some(k) => Some(k + 1)
  }

  function WithRules(cfg: AppConfig, k: nat, rules: seq<Rule>): AppConfig
    requires k < |cfg.sites|
  {
    cfg.(sites := cfg.sites[k := cfg.sites[k].(rules := rules)])
  }

  // Before the catch-all.
  function Inserted<T>(s: seq<T>, x: T): (r: seq<T>)
    requires s != []
    ensures |r| == |s| + 1 && r[|s| - 1] == x && r[|s|] == s[|s| - 1] && forall i :: 0 <= i < |s| - 1 ==> r[i] == s[i]
  {
    s[..|s| - 1] + [x] + s[|s| - 1..]
  }

  // What an update keeps of the rule it replaces; a system rule stays the catch-all.
  function Replacement(existing: Rule, rule: Rule): Rule {
    var r := rule.(id := existing.id, isSystem := existing.isSystem);
    if existing.isSystem then r.(spec := MatchSpec([], true), enabled := true) else r
  }

  // A rule that is no system rule becomes what is given, and a system rule goes on to
  // match everything; neither changes its id or its kind.
  ghost predicate Becomes(existing: Rule, given: Rule, r: Rule) {
    r.id == existing.id && r.isSystem == existing.isSystem && r.name == given.name && r.action == given.action &&
    if existing.isSystem then r.enabled && r.spec.any && r.spec.clauses == []
    else r.enabled == given.enabled && r.spec == given.spec
  }

  lemma ReplacementIff(existing: Rule, given: Rule, r: Rule)
    ensures r == Replacement(existing, given) <==> Becomes(existing, given, r)
  {
  }

  function NewSite(input: SiteInput, freshId: string): Site {
    Site(if input.id == "" then freshId else input.id, input.name, input.enabled, input.hosts, input.upstream,
         [DEFAULT_RULE])
  }

  // A new site is as given, under a new id where none is given; its one rule is a system
  // rule that leaves every request to what the origin says, with no durations of its own.
  lemma NewSiteIs(lib: Library, input: SiteInput, freshId: string, r: HttpRequest)
    ensures var site := NewSite(input, freshId);
            (input.id != "" ==> site.id == input.id) && (input.id == "" ==> site.id == freshId) &&
            site.name == input.name && site.enabled == input.enabled && site.hosts == input.hosts &&
            site.upstream == input.upstream && |site.rules| == 1 &&
            var rule := site.rules[0];
            rule.isSystem && rule.enabled && rule.id == "default" && rule.name == "Default Rule" &&
            RuleMatches(lib, rule.spec, r) && rule.spec.clauses == [] &&
            rule.action == CacheAction("follow_origin", "", "", false)
  {
  }

  // New rules for one site change nothing else.
  lemma WithRulesIs(cfg: AppConfig, k: nat, rules: seq<Rule>)
    requires k < |cfg.sites|
    ensures var next := WithRules(cfg, k, rules);
            |next.sites| == |cfg.sites| && next.sites[k].rules == rules &&
            next.sites[k] == cfg.sites[k].(rules := rules) &&
            forall i :: 0 <= i < |cfg.sites| && i != k ==> next.sites[i] == cfg.sites[i]
  {
  }

  lemma {:induction false} HostsOfReplaced(lib: Library, sites: seq<Site>, k: nat, site: Site)
    requires k < |sites| && site.hosts == sites[k].hosts
    ensures AllHosts(lib, sites[k := site]) == AllHosts(lib, sites)
    decreases |sites|
  {
    var n := |sites| - 1;
    if k < n {
      assert sites[k := site][..n] == sites[..n][k := site];
      HostsOfReplaced(lib, sites[..n], k, site);
    } else {
      assert sites[k := site][..n] == sites[..n];
    }
  }

  lemma SiteRulesDecide(lib: Library, site: Site, rules: seq<Rule>)
    requires ValidSite(lib, site)
    ensures ValidSite(lib, site.(rules := rules)) <==> ValidRules(lib, rules)
  {
    hide ValidRules, ValidUpstream;
  }

  lemma SameIds(sites: seq<Site>, k: nat, site: Site)
    requires k < |sites| && site.id == sites[k].id
    ensures SiteIds(sites[k := site]) == SiteIds(sites)
  {
  }

  // What a site needs besides its id and rules.
  ghost predicate ValidSettings(lib: Library, site: Site) {
    !Blank(site.name) && site.hosts != [] && (forall i :: 0 <= i < |site.hosts| ==>
                                                lib.normalizeHost(site.hosts[i]) != "") &&
    ValidUpstream(lib, site.upstream)
  }

  lemma DistinctConcat<T>(a: seq<T>, b: seq<T>)
    ensures Distinct(a + b) <==> Distinct(a) && Distinct(b) && forall x :: x in b ==> x !in a
  {
    if Distinct(a + b) {
      DistinctPrefix(a, b);
      forall i, j | 0 <= i < j < |b|
        ensures b[i] != b[j]
      {
        assert (a + b)[|a| + i] == b[i] && (a + b)[|a| + j] == b[j];
      }
      forall i, j | 0 <= i < |a| && 0 <= j < |b|
        ensures a[i] != b[j]
      {
        assert (a + b)[i] == a[i] && (a + b)[|a| + j] == b[j];
      }
    } else {
      var i, j :| 0 <= i < j < |a + b| && (a + b)[i] == (a + b)[j];
      if j < |a| {
        assert a[i] == a[j];
      } else if i < |a| {
        assert a[i] == b[j - |a|] && a[i] in a && b[j - |a|] in b;
      } else {
        assert b[i - |a|] == b[j - |a|];
      }
    }
  }

  lemma DefaultRuleValid(lib: Library)
    ensures ValidRules(lib, [DEFAULT_RULE])
  {
    TrimNoSpaces("default");
    assert TrimSpace("Default Rule") == "Default Rule";
  }

  // Valid settings, a new id, and no host named twice or owned by another site.
  ghost predicate CanCreate(lib: Library, cfg: AppConfig, site: Site) {
    ValidSettings(lib, site) && !Blank(site.id) && site.id !in SiteIds(cfg.sites) &&
    Distinct(Normalized(lib, site.hosts)) &&
    forall host :: host in Normalized(lib, site.hosts) ==> host !in AllHosts(lib, cfg.sites)
  }

  // A created site is accepted exactly if it can be; its one rule is always valid.
  lemma SiteCreatedValid(lib: Library, cfg: AppConfig, input: SiteInput, freshId: string)
    requires ValidConfig(lib, cfg)
    ensures var site := NewSite(input, freshId);
            ValidConfig(lib, AppConfig(cfg.sites + [site])) <==> CanCreate(lib, cfg, site)
  {
    hide Distinct, ValidUpstream, ValidRules;
    var site, n := NewSite(input, freshId), |cfg.sites|;
    var sites := cfg.sites + [site];
    DefaultRuleValid(lib);
    assert sites[..n] == cfg.sites && sites[n] == site;
    assert SiteIds(sites) == SiteIds(cfg.sites) + [site.id];
    DistinctSnoc(SiteIds(cfg.sites), site.id);
    DistinctConcat(AllHosts(lib, cfg.sites), Normalized(lib, site.hosts));
  }

  // New settings are accepted exactly if they are valid and all hosts stay distinct.
  lemma SiteUpdatedValid(lib: Library, cfg: AppConfig, k: nat, site: Site)
    requires ValidConfig(lib, cfg) && k < |cfg.sites| && site.id == cfg.sites[k].id && site.rules == cfg.sites[k].rules
    ensures ValidConfig(lib, AppConfig(cfg.sites[k := site])) <==>
              ValidSettings(lib, site) && Distinct(AllHosts(lib, cfg.sites[k := site]))
  {
    hide Distinct, ValidUpstream, ValidRules, AllHosts;
    SameIds(cfg.sites, k, site);
    assert ValidSite(lib, cfg.sites[k]) && cfg.sites[k := site][k] == site;
  }

  // New rules for one site of a valid configuration are all there is to validate.
  lemma RulesDecide(lib: Library, cfg: AppConfig, k: nat, rules: seq<Rule>)
    requires ValidConfig(lib, cfg) && k < |cfg.sites|
    ensures ValidConfig(lib, WithRules(cfg, k, rules)) <==> ValidRules(lib, rules)
  {
    hide ValidSite, ValidRules, Distinct;
    var site := cfg.sites[k].(rules := rules);
    HostsOfReplaced(lib, cfg.sites, k, site);
    SameIds(cfg.sites, k, site);
    SiteRulesDecide(lib, cfg.sites[k], rules);
    assert WithRules(cfg, k, rules).sites[k] == site;
  }

  lemma InsertedDistinct<T>(s: seq<T>, x: T)
    requires s != [] && Distinct(s)
    ensures Distinct(Inserted(s, x)) <==> x !in s
  {
    hide Inserted;
    var r, n := Inserted(s, x), |s| - 1;
    if x in s {
      var i :| 0 <= i < |s| && s[i] == x;
      assert r[n] == x && r[if i < n then i else n + 1] == x;
    } else {
      forall i, j | 0 <= i < j < |r|
        ensures r[i] != r[j]
      {
        assert i != n ==> r[i] == s[if i < n then i else n];
        assert j != n ==> r[j] == s[if j < n then j else n];
      }
    }
  }

  lemma InsertedIds(rules: seq<Rule>, rule: Rule)
    requires rules != [] && Distinct(RuleIds(rules))
    ensures Distinct(RuleIds(Inserted(rules, rule))) <==> rule.id !in RuleIds(rules)
  {
    hide Inserted, RuleIds, Distinct;
    InsertedDistinct(RuleIds(rules), rule.id);
    var ids, n := RuleIds(rules), |rules| - 1;
    forall i | 0 <= i < |rules| + 1
      ensures RuleIds(Inserted(rules, rule))[i] == Inserted(ids, rule.id)[i]
    {
    }
    assert RuleIds(Inserted(rules, rule)) == Inserted(ids, rule.id);
  }

  // A created rule is accepted exactly if it is valid by itself and its id is new.
  lemma InsertedValid(lib: Library, rules: seq<Rule>, rule: Rule)
    requires ValidRules(lib, rules)
    ensures ValidRules(lib, Inserted(rules, rule)) <==> ValidRule(lib, rule, false) && rule.id !in RuleIds(rules)
  {
    hide ValidRule, Distinct, Inserted, RuleIds;
    InsertedIds(rules, rule);
    var next, n := Inserted(rules, rule), |rules| - 1;
    assert forall i :: 0 <= i < |rules| ==> ValidRule(lib, rules[i], i == n);
    if ValidRules(lib, next) { assert ValidRule(lib, next[n], false); }
    if ValidRule(lib, rule, false) {
      forall i | 0 <= i < |next|
        ensures ValidRule(lib, next[i], i == |next| - 1)
      {
      }
    }
  }

  // A replaced rule is accepted exactly if the replacement is valid in its place.
  lemma ReplacedValid(lib: Library, rules: seq<Rule>, k: nat, rule: Rule)
    requires ValidRules(lib, rules) && k < |rules|
    ensures ValidRules(lib, rules[k := Replacement(rules[k], rule)]) <==>
              ValidRule(lib, Replacement(rules[k], rule), k == |rules| - 1)
  {
    hide ValidRule;
    var next := rules[k := Replacement(rules[k], rule)];
    assert RuleIds(next) == RuleIds(rules);
    assert forall i :: 0 <= i < |rules| ==> ValidRule(lib, rules[i], i == |rules| - 1);
    assert forall i :: 0 <= i < |next| && i != k ==> next[i] == rules[i];
  }

  function Without<T>(s: seq<T>, k: nat): (r: seq<T>)
    requires k < |s|
    ensures |r| == |s| - 1 && forall i :: 0 <= i < |r| ==> r[i] == s[if i < k then i else i + 1]
  {
    s[..k] + s[k + 1..]
  }

  lemma RestDistinct<T>(s: seq<T>, k: nat)
    requires Distinct(s) && k < |s|
    ensures Distinct(Without(s, k))
  {
    hide Without;
  }

  lemma RestIds(rules: seq<Rule>, k: nat)
    requires k < |rules|
    ensures RuleIds(Without(rules, k)) == Without(RuleIds(rules), k)
  {
    hide Without, RuleIds;
  }

  lemma RestSiteIds(sites: seq<Site>, k: nat)
    requires k < |sites|
    ensures SiteIds(Without(sites, k)) == Without(SiteIds(sites), k)
  {
    hide Without, SiteIds;
  }

  // Any rule that is not a system rule can go.
  lemma DeletedValid(lib: Library, rules: seq<Rule>, k: nat)
    requires ValidRules(lib, rules) && k < |rules| && !rules[k].isSystem
    ensures ValidRules(lib, Without(rules, k))
  {
    hide ValidActionOf, ValidClauses, Distinct, Without, RuleIds;
    var next, n := Without(rules, k), |rules| - 1;
    assert ValidRule(lib, rules[n], n == |rules| - 1);
    RestDistinct(RuleIds(rules), k);
    RestIds(rules, k);
    hide ValidRule;
    forall i | 0 <= i < |next|
      ensures ValidRule(lib, next[i], i == |next| - 1)
    {
      assert ValidRule(lib, rules[if i < k then i else i + 1], (if i < k then i else i + 1) == n);
    }
  }

  lemma {:induction false} HostsOfRest(lib: Library, sites: seq<Site>, k: nat)
    requires k < |sites| && Distinct(AllHosts(lib, sites))
    ensures var rest := AllHosts(lib, Without(sites, k));
            Distinct(rest) && forall h :: h in rest ==> h in AllHosts(lib, sites)
    decreases |sites|
  {
    hide Distinct, Without, Normalized;
    var n := |sites| - 1;
    var last := Normalized(lib, sites[n].hosts);
    DistinctPrefix(AllHosts(lib, sites[..n]), last);
    if k == n {
      assert Without(sites, k) == sites[..n];
      assert forall h :: h in AllHosts(lib, sites[..n]) ==> h in AllHosts(lib, sites);
    } else {
      var rest := Without(sites[..n], k);
      HostsOfRest(lib, sites[..n], k);
      assert Without(sites, k) == rest + [sites[n]];
      assert (rest + [sites[n]])[..|rest|] == rest;
      assert AllHosts(lib, Without(sites, k)) == AllHosts(lib, rest) + last;
      SmallerPrefix(AllHosts(lib, sites[..n]), AllHosts(lib, rest), last);
    }
  }

  lemma SmallerPrefix<T>(all: seq<T>, some: seq<T>, tail: seq<T>)
    requires Distinct(all + tail) && Distinct(some) && forall x :: x in some ==> x in all
    ensures Distinct(some + tail)
  {
    DistinctHalves(all, tail);
    forall i, j | 0 <= i < j < |some + tail|
      ensures (some + tail)[i] != (some + tail)[j]
    {
      if i < |some| <= j {
        assert some[i] in all && tail[j - |some|] in tail;
      } else if |some| <= i {
        assert (all + tail)[|all| + i - |some|] == tail[i - |some|] &&
               (all + tail)[|all| + j - |some|] == tail[j - |some|];
      }
    }
  }

  // Any site can go.
  lemma SiteDeletedValid(lib: Library, cfg: AppConfig, k: nat)
    requires ValidConfig(lib, cfg) && k < |cfg.sites|
    ensures ValidConfig(lib, cfg.(sites := Without(cfg.sites, k)))
  {
    hide ValidSite, Distinct, Without, SiteIds, AllHosts;
    HostsOfRest(lib, cfg.sites, k);
    RestDistinct(SiteIds(cfg.sites), k);
    RestSiteIds(cfg.sites, k);
  }

  // The ids name every rule once, the catch-all last.
  ghost predicate IsReordering(ids: seq<string>, rules: seq<Rule>) {
    multiset(ids) == multiset(RuleIds(rules)) && ids != [] && rules != [] && ids[|ids| - 1] == rules[|rules| - 1].id
  }

  lemma {:induction false} DistinctCounts<T>(s: seq<T>, x: T)
    requires Distinct(s)
    ensures multiset(s)[x] == if x in s then 1 else 0
    decreases |s|
  {
    if s != [] {
      var n := |s| - 1;
      DistinctPrefix(s[..n], s[n..]);
      assert s == s[..n] + [s[n]];
      DistinctCounts(s[..n], x);
    }
  }

  lemma SameElements<T>(a: seq<T>, b: seq<T>)
    requires Distinct(a) && Distinct(b)
    ensures multiset(a) == multiset(b) <==> Elements(a) == Elements(b)
  {
    forall x
      ensures multiset(a)[x] == (if x in a then 1 else 0) && multiset(b)[x] == (if x in b then 1 else 0)
    {
      DistinctCounts(a, x);
      DistinctCounts(b, x);
    }
    if multiset(a) == multiset(b) {
      forall x
        ensures x in a <==> x in b
      {
        assert multiset(a)[x] == multiset(b)[x];
      }
      assert Elements(a) == Elements(b);
    }
    if Elements(a) == Elements(b) {
      forall x
        ensures multiset(a)[x] == multiset(b)[x]
      {
        assert x in Elements(a) <==> x in Elements(b);
      }
      assert multiset(a) == multiset(b);
    }
  }

  // The same ids, distinct in one order, are distinct in the other.
  lemma {:induction false} DistinctByCounts<T>(a: seq<T>, b: seq<T>)
    requires Distinct(b) && multiset(a) == multiset(b)
    ensures Distinct(a)
  {
    forall i, j | 0 <= i < j < |a|
      ensures a[i] != a[j]
    {
      DistinctCounts(b, a[i]);
      assert a == a[..i] + [a[i]] + a[i + 1..j] + [a[j]] + a[j + 1..];
      assert multiset(a)[a[i]] <= 1;
      CountsTwice(a[..i], a[i], a[i + 1..j], a[j], a[j + 1..]);
    }
  }

  lemma CountsTwice<T>(p: seq<T>, x: T, q: seq<T>, y: T, r: seq<T>)
    ensures x == y ==> multiset(p + [x] + q + [y] + r)[x] >= 2
  {
  }

  // Puts rules into the order of the given ids, each id taking its rule out of a map.
  method Reorder(rules: seq<Rule>, ids: seq<string>) returns (r: Option<seq<Rule>>)
    requires Distinct(RuleIds(rules))
    ensures r.Some? <==> multiset(ids) == multiset(RuleIds(rules))
    ensures r.Some? ==> RuleIds(r.value) == ids && forall i :: 0 <= i < |r.value| ==> r.value[i] in rules
  {
    hide Distinct, Elements, RuleIds;
    ghost var existing := RuleIds(rules);
    if |rules| != |ids| {
      assert multiset(ids) != multiset(existing) by { assert |multiset(ids)| == |ids| &&
                                                     |multiset(existing)| == |existing|; }
      return None;
    }
    var byId := IndexRules(rules);
    var reordered: seq<Rule> := [];
    NothingSeen(ids);
    for n := 0 to |ids|
      invariant Distinct(ids[..n]) && Elements(ids[..n]) <= Elements(existing) &&
                byId.Keys == Elements(existing) - Elements(ids[..n])
      invariant forall id :: id in byId ==> byId[id].id == id && byId[id] in rules
      invariant RuleIds(reordered) == ids[..n] && forall i :: 0 <= i < |reordered| ==> reordered[i] in rules
    {
      SeenStep(ids, n, []);
      if ids[n] !in byId {
        if multiset(ids) == multiset(existing) { NotRemaining(ids, existing, n); }
        return None;
      }
      var rule := byId[ids[n]];
      byId := byId - {ids[n]};
      assert ids[..n + 1] == ids[..n] + [ids[n]];
      RuleIdsSnoc(reordered, rule);
      reordered := reordered + [rule];
    }
    assert ids[..|ids|] == ids;
    SameElements(ids, existing);
    if byId != map[] {
      assert byId.Keys != {};
      return None;
    }
    assert byId.Keys == {};
    r := Some(reordered);
  }

  lemma RuleIdsSnoc(rules: seq<Rule>, rule: Rule)
    ensures RuleIds(rules + [rule]) == RuleIds(rules) + [rule.id]
  {
  }

  // With the right counts, the next id is never missing.
  lemma NotRemaining(ids: seq<string>, existing: seq<string>, n: nat)
    requires Distinct(existing) && multiset(ids) == multiset(existing) && n < |ids|
    ensures ids[n] in Elements(existing) - Elements(ids[..n])
  {
    DistinctByCounts(ids, existing);
    SameElements(ids, existing);
    assert ids[n] in Elements(ids);
    assert ids[n] !in ids[..n];
  }

  method IndexRules(rules: seq<Rule>) returns (byId: map<string, Rule>)
    requires Distinct(RuleIds(rules))
    ensures byId.Keys == Elements(RuleIds(rules)) && forall id :: id in byId ==> byId[id].id == id && byId[id] in rules
  {
    hide Distinct, Elements;
    byId := map[];
    NothingSeen(RuleIds(rules));
    for n := 0 to |rules|
      invariant byId.Keys == Elements(RuleIds(rules)[..n]) && Distinct(RuleIds(rules)[..n])
      invariant forall id :: id in byId ==> byId[id].id == id && byId[id] in rules
    {
      SeenStep(RuleIds(rules), n, []);
      PrefixDistinct(RuleIds(rules), n + 1);
      byId := byId[rules[n].id := rules[n]];
    }
    assert RuleIds(rules)[..|rules|] == RuleIds(rules);
  }

  lemma PrefixDistinct<T>(s: seq<T>, n: nat)
    requires Distinct(s) && n <= |s|
    ensures Distinct(s[..n])
  {
    assert s == s[..n] + s[n..];
    DistinctPrefix(s[..n], s[n..]);
  }

  // Among valid rules, the one with the last id is the catch-all.
  lemma PlaceDecides(lib: Library, rules: seq<Rule>, rule: Rule)
    requires ValidRules(lib, rules) && rule in rules
    ensures ValidRule(lib, rule, rule.id == rules[|rules| - 1].id)
    ensures rule.spec.any <==> rule.id == rules[|rules| - 1].id
  {
    hide Distinct, ValidActionOf, ValidClauses, RuleIds;
    var n := |rules| - 1;
    var j :| 0 <= j < |rules| && rules[j] == rule;
    assert ValidRule(lib, rules[j], j == n);
    OnlyPlace(RuleIds(rules), j, n);
  }

  lemma LastIsAny(lib: Library, rules: seq<Rule>)
    requires ValidRules(lib, rules)
    ensures rules[|rules| - 1].spec.any
  {
    assert ValidRule(lib, rules[|rules| - 1], true);
  }

  // Reordered valid rules are valid exactly if the catch-all is still last.
  lemma ReorderedValid(lib: Library, rules: seq<Rule>, next: seq<Rule>)
    requires ValidRules(lib, rules) && multiset(RuleIds(next)) == multiset(RuleIds(rules)) &&
             forall i :: 0 <= i < |next| ==> next[i] in rules
    ensures ValidRules(lib, next) <==> IsReordering(RuleIds(next), rules)
  {
    hide Distinct, ValidRule, RuleIds;
    var m, n := |next| - 1, |rules| - 1;
    assert |multiset(RuleIds(next))| == |multiset(RuleIds(rules))| && |next| == |rules|;
    DistinctByCounts(RuleIds(next), RuleIds(rules));
    if ValidRules(lib, next) {
      LastIsAny(lib, next);
      PlaceDecides(lib, rules, next[m]);
    }
    if next[m].id == rules[n].id {
      forall i | 0 <= i < |next|
        ensures ValidRule(lib, next[i], i == m)
      {
        PlaceDecides(lib, rules, next[i]);
        OnlyPlace(RuleIds(next), i, m);
      }
    }
  }

  lemma OnlyPlace<T>(s: seq<T>, i: nat, j: nat)
    requires Distinct(s) && i < |s| && j < |s|
    ensures s[i] == s[j] <==> i == j
  {
  }

  /** The service. save stands for the config file: may the n-th save succeed? */
  class Service {
    const lib: Library
    const save: (nat, AppConfig) -> bool
    const versions: nat -> string
    var config: AppConfig
    var live: Snapshot
    var saves: nat
    var compiles: nat

    constructor (lib: Library, save: (nat, AppConfig) -> bool, versions: nat -> string, config: AppConfig,
                 live: Snapshot)
      requires ValidConfig(lib, config) && IsCurrent(lib, config, live)
      ensures Inv() && this.config == config && this.lib == lib
    {
      this.lib, this.save, this.versions, this.config, this.live := lib, save, versions, config, live;
      saves, compiles := 0, 0;
    }

    // The configuration is valid and the live snapshot is its compilation.
    ghost predicate Inv()
      reads this
    {
      ValidConfig(lib, config) && IsCurrent(lib, config, live)
    }

    // Commits a changed configuration, or none of it.
    method Update(next: Option<AppConfig>) returns (ok: bool)
      requires Inv()
      modifies this
      ensures Inv()
      ensures ok <==> next.Some? && ValidConfig(lib, next.value) && save(old(saves), next.value)
      ensures if ok then config == next.value else config == old(config) && live == old(live)
      ensures Reflects(lib, config, live) && (ok ==> live.version == versions(old(compiles)))
      ensures compiles == old(compiles) + if next.Some? && ValidConfig(lib, next.value) then 1 else 0
    {
      hide ValidConfig, Reflects, HostIndex, CompiledSites;
      CompiledReflects(lib, config, live);
      if next.None? {
        return false;
      }
      var valid := Validate(lib, next.value);
      if !valid {
        return false;
      }
      ValidCompiles(lib, next.value);
      var compiled := Compile(lib, next.value, versions(compiles));
      compiles := compiles + 1;
      var previous := live;
      live := compiled.value;
      saves := saves + 1;
      if !save(saves - 1, next.value) {
        live := previous;
        return false;
      }
      config := next.value;
      ok := true;
    }

    method CreateSite(input: SiteInput, freshId: string) returns (r: Option<Site>)
      requires Inv()
      modifies this
      ensures Inv()
      ensures var next := AppConfig(old(config).sites + [NewSite(input, freshId)]);
              (r.Some? <==> CanCreate(lib, old(config), NewSite(input, freshId)) && save(old(saves), next)) &&
              if r.Some? then config == next && r.value == NewSite(input, freshId)
              else config == old(config) && live == old(live)
    {
      hide ValidSite, CanCreate;
      var next := AppConfig(config.sites + [NewSite(input, freshId)]);
      SiteCreatedValid(lib, config, input, freshId);
      var ok := Update(Some(next));
      if !ok {
        return None;
      }
      // The site is looked up again by id, which is its alone.
      var k := SiteIndex(config.sites, NewSite(input, freshId).id);
      OnlyPlace(SiteIds(config.sites), k.value, |config.sites| - 1);
      r := Some(config.sites[k.value]);
    }

    method UpdateSite(id: string, input: SiteInput) returns (ok: bool)
      requires Inv()
      modifies this
      ensures Inv()
      ensures match SiteIndex(old(config).sites, id)
              case None => !ok && config == old(config) && live == old(live)
              case Some(k) =>
                var site := old(config).sites[k].(name := input.name, enabled := input.enabled, hosts := input.hosts,
                                                  upstream := input.upstream);
                var next := AppConfig(old(config).sites[k := site]);
                (ok <==> ValidSettings(lib, site) && Distinct(AllHosts(lib, next.sites)) && save(old(saves), next)) &&
                if ok then config == next else config == old(config) && live == old(live)
    {
      hide ValidConfig, ValidSettings, Distinct;
      var k := SiteIndex(config.sites, id);
      if k.None? {
        return false;
      }
      var site := config.sites[k.value].(name := input.name, enabled := input.enabled, hosts := input.hosts,
                                         upstream := input.upstream);
      SiteUpdatedValid(lib, config, k.value, site);
      ok := Update(Some(AppConfig(config.sites[k.value := site])));
    }

    // Succeeds exactly if the site exists and the result can be saved.
    method DeleteSite(id: string) returns (ok: bool)
      requires Inv()
      modifies this
      ensures Inv()
      ensures match SiteIndex(old(config).sites, id)
              case None => !ok && config == old(config) && live == old(live)
              case Some(k) =>
                var next := AppConfig(Without(old(config).sites, k));
                (ok <==> save(old(saves), next)) &&
                if ok then config == next else config == old(config) && live == old(live)
    {
      hide ValidConfig;
      var k := SiteIndex(config.sites, id);
      if k.None? {
        return false;
      }
      SiteDeletedValid(lib, config, k.value);
      ok := Update(Some(AppConfig(Without(config.sites, k.value))));
    }

    // Inserts a rule before the catch-all, exactly if it is valid there, its id is new
    // and the result can be saved.
    method CreateRule(siteId: string, rule: Rule, freshId: string) returns (r: Option<Rule>)
      requires Inv()
      modifies this
      ensures Inv()
      ensures var created := if rule.id == "" then rule.(id := freshId) else rule;
              match SiteIndex(old(config).sites, siteId)
              case None => r.None? && config == old(config) && live == old(live)
              case Some(k) =>
                var rules := old(config).sites[k].rules;
                rules != [] &&
                var next := WithRules(old(config), k, Inserted(rules, created));
                (r.Some? <==> ValidRule(lib, created, false) && created.id !in RuleIds(rules) &&
                              save(old(saves), next)) &&
                if r.Some? then config == next && r.value == created else config == old(config) && live == old(live)
    {
      hide ValidRule, ValidUpstream, Distinct;
      var created := if rule.id == "" then rule.(id := freshId) else rule;
      var k := SiteIndex(config.sites, siteId);
      if k.None? {
        return None;
      }
      var rules := config.sites[k.value].rules;
      assert ValidSite(lib, config.sites[k.value]);
      RulesDecide(lib, config, k.value, Inserted(rules, created));
      InsertedValid(lib, rules, created);
      var ok := Update(Some(WithRules(config, k.value, Inserted(rules, created))));
      if !ok {
        return None;
      }
      // Site and rule are looked up again by id.
      FoundRule(lib, config, k.value, |rules| - 1);
      assert config.sites[k.value].rules[|rules| - 1] == created;
      var at := RuleIndex(config.sites[k.value].rules, created.id);
      r := Some(config.sites[k.value].rules[at.value]);
    }

    // In a valid configuration, ids lead back to the site and the rule.
    lemma FoundRule(lib: Library, cfg: AppConfig, k: nat, i: nat)
      requires ValidConfig(lib, cfg) && k < |cfg.sites| && i < |cfg.sites[k].rules|
      ensures SiteIndex(cfg.sites, cfg.sites[k].id) == Some(k) &&
              RuleIndex(cfg.sites[k].rules, cfg.sites[k].rules[i].id) == Some(i)
    {
      hide ValidRule, ValidUpstream;
      assert ValidSite(lib, cfg.sites[k]);
      OnlyPlace(SiteIds(cfg.sites), SiteIndex(cfg.sites, cfg.sites[k].id).value, k);
      OnlyPlace(RuleIds(cfg.sites[k].rules), RuleIndex(cfg.sites[k].rules, cfg.sites[k].rules[i].id).value, i);
    }

    // Replaces a rule, exactly if it exists, its replacement is valid in its place, and
    // the result can be saved.
    method UpdateRule(siteId: string, ruleId: string, rule: Rule) returns (ok: bool)
      requires Inv()
      modifies this
      ensures Inv()
      ensures match SiteIndex(old(config).sites, siteId)
              case None => !ok && config == old(config) && live == old(live)
              case Some(k) =>
                var rules := old(config).sites[k].rules;
                match RuleIndex(rules, ruleId)
                case None => !ok && config == old(config) && live == old(live)
                case Some(i) =>
                  var next := WithRules(old(config), k, rules[i := Replacement(rules[i], rule)]);
                  (ok <==> ValidRule(lib, Replacement(rules[i], rule), i == |rules| - 1) && save(old(saves), next)) &&
                  (if ok then config == next else config == old(config) && live == old(live)) &&
                  (ok ==> Becomes(rules[i], rule, config.sites[k].rules[i]))
    {
      hide ValidRule, ValidUpstream, Distinct;
      var k := SiteIndex(config.sites, siteId);
      if k.None? {
        return false;
      }
      var rules := config.sites[k.value].rules;
      var i := RuleIndex(rules, ruleId);
      if i.None? {
        return false;
      }
      assert ValidSite(lib, config.sites[k.value]);
      var next := rules[i.value := Replacement(rules[i.value], rule)];
      RulesDecide(lib, config, k.value, next);
      ReplacedValid(lib, rules, i.value, rule);
      ReplacementIff(rules[i.value], rule, next[i.value]);
      ok := Update(Some(WithRules(config, k.value, next)));
    }

    // Deletes a rule, exactly if it exists, is no system rule, and the result can be saved.
    method DeleteRule(siteId: string, ruleId: string) returns (ok: bool)
      requires Inv()
      modifies this
      ensures Inv()
      ensures match SiteIndex(old(config).sites, siteId)
              case None => !ok && config == old(config) && live == old(live)
              case Some(k) =>
                var rules := old(config).sites[k].rules;
                match RuleIndex(rules, ruleId)
                case None => !ok && config == old(config) && live == old(live)
                case Some(i) =>
                  var next := WithRules(old(config), k, Without(rules, i));
                  (ok <==> !rules[i].isSystem && save(old(saves), next)) &&
                  if ok then config == next else config == old(config) && live == old(live)
    {
      hide ValidRule, ValidUpstream, Distinct, Without, RuleIds;
      var k := SiteIndex(config.sites, siteId);
      if k.None? {
        return false;
      }
      var rules := config.sites[k.value].rules;
      var i := RuleIndex(rules, ruleId);
      if i.None? || rules[i.value].isSystem {
        return false;
      }
      assert ValidSite(lib, config.sites[k.value]);
      var next := Without(rules, i.value);
      RulesDecide(lib, config, k.value, next);
      DeletedValid(lib, rules, i.value);
      ok := Update(Some(WithRules(config, k.value, next)));
    }

    // Reorders the rules of a site, exactly if the ids are a permutation of the existing
    // ones that keeps the catch-all last, and the result can be saved. The rules are then
    // the old ones, in exactly the requested order.
    method ReorderRules(siteId: string, ids: seq<string>) returns (r: Option<seq<Rule>>, ghost next: seq<Rule>)
      requires Inv()
      modifies this
      ensures Inv()
      ensures match SiteIndex(old(config).sites, siteId)
              case None => r.None? && config == old(config) && live == old(live)
              case Some(k) =>
                var rules := old(config).sites[k].rules;
                (multiset(ids) == multiset(RuleIds(rules)) ==> RuleIds(next) == ids && forall i :: 0 <= i < |next| ==>
                   next[i] in rules) &&
                (r.Some? <==> IsReordering(ids, rules) && save(old(saves), WithRules(old(config), k, next))) &&
                if r.Some? then r.value == next && config == WithRules(old(config), k, next)
                  else config == old(config) && live == old(live)
    {
      hide ValidRule, ValidUpstream, Distinct;
      next := [];
      var k := SiteIndex(config.sites, siteId);
      if k.None? {
        return None, next;
      }
      var rules := config.sites[k.value].rules;
      assert ValidSite(lib, config.sites[k.value]);
      var reordered := Reorder(rules, ids);
      if reordered.None? {
        return None, next;
      }
      next := reordered.value;
      RulesDecide(lib, config, k.value, reordered.value);
      ReorderedValid(lib, rules, reordered.value);
      var ok := Update(Some(WithRules(config, k.value, reordered.value)));
      r := if ok then Some(config.sites[k.value].rules) else None;
    }
  }

  ghost predicate IsCurrent(lib: Library, cfg: AppConfig, live: Snapshot) {
    CompiledSites(lib, cfg.sites) == Some(live.sites) && live.hosts == HostIndex(lib, live.sites)
  }

  lemma ValidCompiles(lib: Library, cfg: AppConfig)
    requires ValidConfig(lib, cfg)
    ensures CompiledSites(lib, cfg.sites).Some?
  {
    hide ValidSite;
    ValidSitesCompile(lib, cfg.sites);
  }
}
