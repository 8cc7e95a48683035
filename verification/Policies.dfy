/** Cache policies, and the tag that stores them with every entry. */
module Policies {
  import opened Text
  import opened Freshness

  datatype CacheAction = CacheAction(mode: string, ttl: string, staleIfError: string, optimistic: bool)

  const MODES: set<string> := {"follow_origin", "bypass", "force_cache", "override_origin"}

  function FormatBool(b: bool): string {
    if b then "true" else "false"
  }

  function PolicyTag(ruleId: string, action: CacheAction): string {
    ruleId + "|" + action.mode + "|" + FormatBool(action.optimistic) + "|" + action.ttl + "|" + action.staleIfError
  }

  function ModeOf(mode: string): CacheMode {
    if mode == "bypass" then Bypass else if mode == "follow_origin" then FollowOrigin
      else if mode == "override_origin" then OverrideOrigin else ForceCache
  }

  // The mode each name stands for.
  lemma ModesAre(mode: string)
    ensures ModeOf("follow_origin") == FollowOrigin && ModeOf("bypass") == Bypass
    ensures ModeOf("force_cache") == ForceCache && ModeOf("override_origin") == OverrideOrigin
    ensures mode in MODES <==>
              mode == "follow_origin" || mode == "bypass" || mode == "force_cache" || mode == "override_origin"
  {
  }

  function BuildPolicy(siteId: string, ruleId: string, action: CacheAction, ttl: Option<int>,
                       staleIfError: Option<int>): Policy {
    Policy(siteId, ruleId, PolicyTag(ruleId, action), ModeOf(action.mode),
           if ttl.Some? then ttl.value else 0, ttl.Some?, if staleIfError.Some? then staleIfError.value
             else 0, staleIfError.Some?,
           action.optimistic, OPTIMISTIC_MAX_STALE)
  }

  // The parser of optional durations: nothing for the empty string, an error for a
  // string that is no positive duration.
  function ParseOptionalDuration(parse: string -> Option<int>, raw: string): Option<Option<int>> {
    if raw == "" then Some(None)
    else
      match parse(raw)
      case None => None
      case Some(d) => if d <= 0 then None else Some(Some(d))
  }

  // No string the duration parser accepts contains a bar.
  ghost predicate BarFree(parse: string -> Option<int>) {
    forall s :: parse(s).Some? ==> '|' !in s
  }

  // What validation leaves of a rule's cache action.
  ghost predicate ValidAction(parse: string -> Option<int>, action: CacheAction) {
    action.mode in MODES && ParseOptionalDuration(parse, action.ttl).Some? &&
    ParseOptionalDuration(parse, action.staleIfError).Some?
  }

  // The last bar of a string, if nothing after it has one.
  lemma LastBar(a: string, b: string, c: string, d: string)
    requires '|' !in b && '|' !in d && a + "|" + b == c + "|" + d
    ensures a == c && b == d
  {
    var s := a + "|" + b;
    assert s[|a|] == '|' && s[|c|] == '|';
    assert forall i :: |a| < i < |s| ==> s[i] == b[i - |a| - 1];
    assert forall i :: |c| < i < |s| ==> s[i] == d[i - |c| - 1];
    assert |a| == |c|;
    assert s[|a| + 1..] == b && s[|c| + 1..] == d;
    assert s[..|a|] == a && s[..|c|] == c;
  }

  lemma TagParts(ruleId: string, m: string, o: string, t: string, e: string, ruleId': string, m': string, o': string,
                 t': string, e': string)
    requires '|' !in m && '|' !in o && '|' !in t && '|' !in e && '|' !in m' && '|' !in o' && '|' !in t' && '|' !in e'
    requires ruleId + "|" + m + "|" + o + "|" + t + "|" + e == ruleId' + "|" + m' + "|" + o' + "|" + t' + "|" + e'
    ensures ruleId == ruleId' && m == m' && o == o' && t == t' && e == e'
  {
    LastBar(ruleId + "|" + m + "|" + o + "|" + t, e, ruleId' + "|" + m' + "|" + o' + "|" + t', e');
    LastBar(ruleId + "|" + m + "|" + o, t, ruleId' + "|" + m' + "|" + o', t');
    LastBar(ruleId + "|" + m, o, ruleId' + "|" + m', o');
    LastBar(ruleId, m, ruleId', m');
  }

  lemma PlainAction(parse: string -> Option<int>, action: CacheAction)
    requires BarFree(parse) && ValidAction(parse, action)
    ensures '|' !in action.mode && '|' !in FormatBool(action.optimistic) && '|' !in action.ttl &&
            '|' !in action.staleIfError
  {
    PlainMode(action.mode);
    PlainBool(action.optimistic);
    hide FormatBool;
  }

  lemma PlainMode(mode: string)
    ensures mode in MODES ==> '|' !in mode
  {
  }

  lemma PlainBool(b: bool)
    ensures '|' !in FormatBool(b)
  {
  }

  lemma FormatBoolInjective(a: bool, b: bool)
    ensures FormatBool(a) == FormatBool(b) ==> a == b
  {
    assert "true"[0] == 't' && "false"[0] == 'f';
  }

  // The tag says which rule it was, its mode, optimism and durations, for valid rules.
  lemma TagDeterminesPolicy(parse: string -> Option<int>, siteId: string, ruleId: string, action: CacheAction,
                            ruleId': string, action': CacheAction)
    requires BarFree(parse) && ValidAction(parse, action) && ValidAction(parse, action')
    requires PolicyTag(ruleId, action) == PolicyTag(ruleId', action')
    ensures ruleId == ruleId' && action == action'
    ensures var ttl, stale := ParseOptionalDuration(parse, action.ttl).value,
              ParseOptionalDuration(parse, action.staleIfError).value;
            var ttl', stale' := ParseOptionalDuration(parse, action'.ttl).value,
                ParseOptionalDuration(parse, action'.staleIfError).value;
            BuildPolicy(siteId, ruleId, action, ttl, stale) == BuildPolicy(siteId, ruleId', action', ttl', stale')
  {
    hide ValidAction, BarFree, FormatBool, BuildPolicy;
    PlainAction(parse, action);
    PlainAction(parse, action');
    TagParts(ruleId, action.mode, FormatBool(action.optimistic), action.ttl, action.staleIfError,
             ruleId', action'.mode, FormatBool(action'.optimistic), action'.ttl, action'.staleIfError);
    FormatBoolInjective(action.optimistic, action'.optimistic);
  }

  // The policy is built from a valid rule, as the router builds it.
  ghost predicate RulePolicy(parse: string -> Option<int>, policy: Policy) {
    exists siteId, ruleId, action :: ValidAction(parse, action) && policy == PolicyOf(parse, siteId, ruleId, action)
  }

  ghost function PolicyOf(parse: string -> Option<int>, siteId: string, ruleId: string, action: CacheAction): Policy
    requires ValidAction(parse, action)
  {
    BuildPolicy(siteId, ruleId, action, ParseOptionalDuration(parse, action.ttl).value,
                ParseOptionalDuration(parse, action.staleIfError).value)
  }

  // The same but for the site.
  ghost predicate SameSettings(p: Policy, q: Policy) {
    p.(siteId := q.siteId) == q
  }

  lemma SameTagSameSettings(parse: string -> Option<int>, p: Policy, q: Policy)
    requires BarFree(parse) && RulePolicy(parse, p) && RulePolicy(parse, q) && p.policyTag == q.policyTag
    ensures SameSettings(p, q)
  {
    hide ValidAction, PolicyTag, BarFree;
    var siteId, ruleId, action :| ValidAction(parse, action) && p == PolicyOf(parse, siteId, ruleId, action);
    var siteId', ruleId', action' :| ValidAction(parse, action') && q == PolicyOf(parse, siteId', ruleId', action');
    TagDeterminesPolicy(parse, siteId', ruleId, action, ruleId', action');
  }

  lemma RulePolicyFacts(parse: string -> Option<int>, policy: Policy)
    requires RulePolicy(parse, policy)
    ensures policy.policyTag != "" && TtlPositive(policy)
  {
  }
}
