/** The engine: lookups, fills, renewals and stale answers over the Vary-indexed key
    space, each plan released exactly once. */
module EngineModel {
  import opened Text
  import opened Headers
  import opened CacheKeys
  import opened Freshness
  import Directives
  import opened Policies
  import opened BlobStore
  import opened FillProtocol
  import RangeModel
  import RC = RangeCaching
  import opened KeySpace
  import RenewalBodies

  datatype State = Bypassed | Miss | Hit | Stale

  datatype Result = Result(state: State, status: int, header: Header, body: seq<Byte>, bodyPath: BodyPath,
                           contentLength: int, cleanupPath: bool)

  datatype FillPlan = FillPlan(base: string, key: string, header: Header, policy: Policy, verb: string,
                               fallback: Option<Entry>, revalidate: bool)

  // One pass of the start loop: an answer, a plan to carry out, both, or a fill to wait for.
  datatype StartResult = Answer(result: Result) | AnswerAndLead(result: Result, plan: FillPlan) | Lead(plan: FillPlan)
      | WaitFor(fill: FillId)

  // What reaches the client of a streamed fill.
  datatype Streaming = FromStore(result: Result) | Streamed(state: State, status: int, body: seq<Byte>, whole: bool)
      | SentError

  // What comes of one pass of serving a request.
  datatype Response = PassedThrough | MustWait(fill: FillId) | NoAnswer
      | Sent(state: State, status: int, body: seq<Byte>, complete: bool)

  // What goes wrong around a streamed fill; copied is how much of the body got through.
  datatype Faults = Faults(tooLarge: bool, tempDir: bool, tempFile: bool, copy: bool, copied: nat)

  const NO_RESPONSE: StoredResponse := StoredResponse(0, map[], [], NoPath, 0, false)

  // What an entry's windows were decided on: the reply to a request, at a clock reading
  // and the next, or a renewal of an earlier entry; and the request whose reply carried
  // the body.
  datatype Dating = Dating(policy: Policy, call: nat, tick: nat, source: nat, previous: Option<Entry>)

  // Every request ever sent, and every entry ever built for a URL.
  datatype Ledger = Ledger(log: seq<RC.Query>, dated: map<(string, Entry), Dating>)

  // Nothing known is forgotten.
  ghost predicate Learns(a: Ledger, b: Ledger) {
    a.log <= b.log && RangeModel.Grows(a.dated, b.dated)
  }

  lemma LearnsReflexive(a: Ledger)
    ensures Learns(a, a)
  {
  }

  // A request about to be served: its URL, fields, method and policy, and the store, the
  // next clock reading, the next request to the origin and the fills at that moment.
  datatype Turn = Turn(
    base: string, header: Header, verb: string, policy: Policy, st: StoreState, tick: nat, call: nat,
    fills: map<string, FillId>)

  // The bytes a stored response stands for, as they are sent.
  ghost function Bytes(history: Files, r: StoredResponse): seq<Byte> {
    if r.bodyPath == NoPath then r.body else if r.bodyPath in history then history[r.bodyPath] else []
  }

  // Nothing on disk but what was there, under the same names.
  ghost predicate OnlyLosesFiles(st: StoreState, st': StoreState) {
    st'.history == st.history && st'.names == st.names && forall p :: p in st'.files ==>
      p in st.files && st'.files[p] == st.files[p]
  }

  lemma NamesStayFresh(st: StoreState, st': StoreState)
    requires NamesFresh(st) && OnlyLosesFiles(st, st')
    ensures NamesFresh(st')
  {
  }

  lemma CreateTempFresh(st: StoreState, content: seq<Byte>)
    requires NamesFresh(st)
    ensures NamesFresh(CreateTempState(st, content)) &&
            RangeModel.Grows(st.history, CreateTempState(st, content).history)
  {
    assert Temp(st.names).id == st.names;
  }

  lemma ImportFresh(st: StoreState, path: BodyPath)
    requires NamesFresh(st) && path.Temp? && path in st.files
    ensures NamesFresh(ImportState(st, path)) && RangeModel.Grows(st.history, ImportState(st, path).history) &&
            ImportState(st, path).history[Blob(path.id)] == st.history[path]
  {
  }

  lemma ImportLoose(st: StoreState, path: BodyPath)
    requires Sound(st) && path.Temp? && path in st.files
    ensures Sound(ImportState(st, path)) && RangeModel.Loose(ImportState(st, path), Blob(path.id))
  {
    ImportSound(st, path, "");
    var st' := ImportState(st, path);
    assert forall k :: k in st'.records ==> BodyAt(st', k) == BodyAt(st, k);
  }

  lemma DeleteLosesFiles(w: World, st: StoreState, key: string, prefix: string)
    ensures OnlyLosesFiles(st, DeleteState(w, st, key)) && OnlyLosesFiles(st, DeletePrefixState(w, st, prefix))
  {
  }

  lemma PutLosesFiles(w: World, st: StoreState, key: string, entry: Entry)
    ensures OnlyLosesFiles(st, PutEntryState(w, st, key, entry))
  {
  }

  // What storing a response leaves of the URL's records, and adds to them.
  lemma StoreShape(w: World, st: StoreState, base: string, entry: Entry, names: seq<string>)
    requires RangeModel.IsObjectKey(base, entry.key) && (names == [] ==> entry.key == ResponseKey(base))
    ensures var st' := StoreResponseState(w, st, base, entry, names);
            OnlyLosesFiles(st, st') &&
            forall k :: k in st'.records && RangeModel.IsObjectKey(base, k) ==>
              (k in st.records && st'.records[k] == st.records[k]) || st'.records[k] == EntryRecord(entry)
  {
    hide PutEntryState, DeleteState, DeletePrefixState;
    var before := RenewalBodies.BeforePut(w, st, base, names);
    PutLosesFiles(w, before, entry.key, entry);
    PutEntryKeepsOthers(w, before, entry);
    BeforePutShape(w, st, base, names);
  }

  lemma PutEntryKeepsOthers(w: World, st: StoreState, entry: Entry)
    ensures var st' := PutEntryState(w, st, entry.key, entry);
            forall k :: k in st'.records ==> (k in st.records && st'.records[k] == st.records[k]) ||
                                             st'.records[k] == EntryRecord(entry)
  {
    hide PutWithBody;
    PutShape(w, st, entry.key, EntryRecord(entry), entry.windows.invalidAt, entry.response.bodyPath);
  }

  lemma BeforePutShape(w: World, st: StoreState, base: string, names: seq<string>)
    ensures var st' := RenewalBodies.BeforePut(w, st, base, names);
            OnlyLosesFiles(st, st') && forall k :: k in st'.records && RangeModel.IsObjectKey(base, k) ==>
              k in st.records && st'.records[k] == st.records[k]
  {
    hide DeleteState, DeletePrefixState, VariantPrefix;
    Kinds(base);
    if names == [] {
      var st1 := DeletePrefixState(w, st, VariantPrefix(base));
      DeleteLosesFiles(w, st, "", VariantPrefix(base));
      DeleteLosesFiles(w, st1, VaryKey(base), "");
      DeletePrefixShape(w, st, VariantPrefix(base));
      DeletedShape(w, st1, VaryKey(base));
    } else {
      var st1 := Lapse(w, st);
      var st2 := DeletePrefixState(w, st1, VariantPrefix(base));
      DeletePrefixShape(w, st1, VariantPrefix(base));
      DeletedShape(w, st1, ResponseKey(base));
      DeletedShape(w, st2, ResponseKey(base));
      DeleteLosesFiles(w, st1, ResponseKey(base), VariantPrefix(base));
      DeleteLosesFiles(w, st2, ResponseKey(base), "");
    }
  }

  function BuildEntry(now: int, key: string, policy: Policy, d: Decision, r: StoredResponse): Entry {
    Entry(key, policy.siteId, policy.ruleId, policy.policyTag, WindowsAt(now, d, HasValidators(r.header)),
          ParseAge(Get(r.header, "Age")),
          StoredResponse(r.status, SanitizeStored(r.header), r.body, r.bodyPath,
                         if r.contentLength == 0 && r.body != [] then |r.body| else r.contentLength, false))
  }

  // The Age field is computed from the wall clock and not part of this model.
  function EntryResult(entry: Entry, state: State): Result {
    Result(state, entry.response.status, SanitizeStored(entry.response.header), entry.response.body,
           entry.response.bodyPath, entry.response.contentLength, false)
  }

  function BuildResult(state: State, r: StoredResponse): Result {
    Result(state, r.status, SanitizeStored(r.header), r.body, r.bodyPath, if r.contentLength == 0 &&
           r.body != [] then |r.body| else r.contentLength, r.cleanupPath)
  }

  predicate CanServeStaleOnError(now: int, policy: Policy, entry: Entry) {
    entry.policyTag == policy.policyTag &&
    (now < entry.windows.freshUntil || (policy.optimistic && now < entry.windows.staleUntil) ||
     (policy.hasStaleIfError && now < entry.windows.invalidAt))
  }

  predicate CanRevalidate(policy: Policy, entry: Entry) {
    policy.mode == FollowOrigin && HasValidators(entry.response.header)
  }

  function RevalidationHeaders(h: Header, entry: Entry): Header {
    var etag, lastModified := Get(entry.response.header, "Etag"), Get(entry.response.header, "Last-Modified");
    var h1 := if etag != "" then h["If-None-Match" := [etag]] else h;
    if lastModified != "" then h1["If-Modified-Since" := [lastModified]] else h1
  }

  // An entry is that of its response, received now for the policy's rule, its length that
  // of the body in memory where none is given.
  lemma EntryIs(now: int, key: string, policy: Policy, d: Decision, r: StoredResponse, name: string)
    ensures var entry := BuildEntry(now, key, policy, d, r);
            entry.key == key && entry.siteId == policy.siteId && entry.ruleId == policy.ruleId &&
            entry.policyTag == policy.policyTag && entry.baseAge == ParseAge(Get(r.header, "Age")) &&
            entry.windows == WindowsAt(now, d, Get(r.header, "Etag") != "" || Get(r.header, "Last-Modified") != "") &&
            entry.response.status == r.status && entry.response.body == r.body &&
            entry.response.bodyPath == r.bodyPath && !entry.response.cleanupPath &&
            (r.contentLength != 0 || r.body == [] ==> entry.response.contentLength == r.contentLength) &&
            (r.contentLength == 0 ==> entry.response.contentLength == |r.body|) &&
            Values(entry.response.header, name) == KeptValues(r.header, name)
  {
    hide SanitizeStored, WindowsAt, ParseAge;
    KeptFields(r.header, name);
  }

  // What a stored response keeps of a field: all its values, unless it is of the
  // connection or gives the length.
  ghost function KeptValues(h: Header, name: string): seq<string> {
    if NamesOption(h, name) || name in {"Connection", "Keep-Alive", "Proxy-Authenticate", "Proxy-Authorization", "Te",
                                        "Trailer", "Transfer-Encoding", "Upgrade", "Content-Length"}
    then [] else Values(h, name)
  }

  lemma KeptFields(h: Header, name: string)
    ensures Values(SanitizeStored(h), name) == KeptValues(h, name)
  {
    hide SanitizeStored, NamesOption;
    StoredFieldsAre(h, name);
  }

  // An entry is answered with its status, its body and its fields, a response likewise.
  lemma ResultIs(entry: Entry, state: State, r: StoredResponse, name: string)
    ensures var result := EntryResult(entry, state);
            result.state == state && result.status == entry.response.status && result.body == entry.response.body &&
            result.bodyPath == entry.response.bodyPath && result.contentLength == entry.response.contentLength &&
            !result.cleanupPath && Values(result.header, name) == KeptValues(entry.response.header, name)
    ensures var result := BuildResult(state, r);
            result.state == state && result.status == r.status && result.body == r.body &&
            result.bodyPath == r.bodyPath && result.cleanupPath == r.cleanupPath &&
            (r.contentLength != 0 || r.body == [] ==> result.contentLength == r.contentLength) &&
            (r.contentLength == 0 ==> result.contentLength == |r.body|) &&
            Values(result.header, name) == KeptValues(r.header, name)
  {
    hide SanitizeStored;
    KeptFields(entry.response.header, name);
    KeptFields(r.header, name);
  }

  // Until when an entry may stand in for a failing origin: for as long as it is fresh,
  // and longer if the policy allows it.
  ghost function StandsInUntil(policy: Policy, w: Windows): int {
    var stale := if policy.optimistic && w.staleUntil > w.freshUntil then w.staleUntil else w.freshUntil;
    if policy.hasStaleIfError && w.invalidAt > stale then w.invalidAt else stale
  }

  lemma ServesOnErrorIff(now: int, policy: Policy, entry: Entry)
    ensures CanServeStaleOnError(now, policy, entry) <==>
            entry.policyTag == policy.policyTag && now < StandsInUntil(policy, entry.windows)
  {
  }

  // An entry of the same rule settings is fresh up to its first bound, and stale from
  // there up to its second for an optimistic policy.
  lemma FoundIsIff(now: int, policy: Policy, entry: Entry)
    ensures FreshFor(policy, Some(entry), now) <==>
            policy.policyTag == entry.policyTag && entry.windows.freshUntil > now
    ensures StaleFor(policy, Some(entry), now) <==>
            policy.policyTag == entry.policyTag && policy.optimistic && !(entry.windows.freshUntil > now) &&
            entry.windows.staleUntil > now
    ensures !FreshFor(policy, None, now) && !StaleFor(policy, None, now)
  {
  }

  // The fields of a request the engine caches; none for one it passes through.
  function PrepareRequest(request: RC.Request, policy: Policy): Option<Header> {
    if policy.mode == CacheMode.Bypass || RC.SharedCacheSensitive(request.header) ||
    Get(request.header, "Range") != "" then None
    else if request.verb != "GET" && request.verb != "HEAD" then None
    else Some(request.header - {"Cache-Control", "Pragma"} - RC.CONDITIONAL_HEADERS)
  }

  // Which requests the engine caches, by their fields: GET and HEAD without a range,
  // credentials and cookies. It sends on every field but the conditions and what would
  // direct a cache, with its values as they are.
  lemma CachedIff(request: RC.Request, policy: Policy)
    ensures var h, prepared := request.header, PrepareRequest(request, policy);
            (prepared.Some? <==>
               policy.mode != CacheMode.Bypass && (request.verb == "GET" || request.verb == "HEAD") &&
               Get(h, "Authorization") == "" && Values(h, "Cookie") == [] && Get(h, "Range") == "") &&
            (prepared.Some? ==>
               forall name :: Values(prepared.value, name) ==
                 if name in {"Cache-Control", "Pragma", "If-Match", "If-Modified-Since", "If-None-Match", "If-Range",
                             "If-Unmodified-Since"} then [] else Values(h, name))
  {
  }

  function NewPlan(base: string, key: string, h: Header, policy: Policy, verb: string, found: Option<Entry>): FillPlan {
    var revalidate := found.Some? && CanRevalidate(policy, found.value);
    FillPlan(base, key, if revalidate then RevalidationHeaders(h, found.value) else h, policy, verb, found, revalidate)
  }

  // Applied once more when the request is sent, with the same outcome.
  function PlanHeader(plan: FillPlan): Header {
    if plan.revalidate && plan.fallback.Some? then RevalidationHeaders(plan.header, plan.fallback.value)
      else plan.header
  }

  // What the origin is asked.
  function PlanQuery(plan: FillPlan): RC.Query {
    RC.Query(plan.base, RC.Request("GET", PlanHeader(plan)))
  }

  // The origin is asked for the URL, on the condition that the validators of what was
  // found have changed, if it leads the policy and there are any; the other fields are
  // those prepared from the client's request.
  lemma PlanAsks(base: string, key: string, h: Header, policy: Policy, verb: string, found: Option<Entry>, name: string)
    ensures var q := PlanQuery(NewPlan(base, key, h, policy, verb, found));
            var validating := found.Some? && policy.mode == FollowOrigin;
            var etag := if validating then Get(found.value.response.header, "Etag") else "";
            var lastModified := if validating then Get(found.value.response.header, "Last-Modified") else "";
            q.base == base && q.request.verb == "GET" &&
            Values(q.request.header, name) ==
            if name == "If-None-Match" && etag != "" then [etag]
            else if name == "If-Modified-Since" && lastModified != "" then [lastModified]
            else Values(h, name)
  {
  }

  lemma PlanIs(base: string, key: string, h: Header, policy: Policy, verb: string, found: Option<Entry>)
    ensures var plan := NewPlan(base, key, h, policy, verb, found);
            plan.base == base && plan.key == key && plan.policy == policy && plan.verb == verb &&
            plan.fallback == found &&
            plan.revalidate == (found.Some? && policy.mode == FollowOrigin &&
                                (Get(found.value.response.header, "Etag") != "" ||
                                 Get(found.value.response.header, "Last-Modified") != ""))
  {
    hide RevalidationHeaders;
  }

  predicate FreshFor(policy: Policy, found: Option<Entry>, now: int) {
    found.Some? && found.value.policyTag == policy.policyTag && now < found.value.windows.freshUntil
  }

  predicate StaleFor(policy: Policy, found: Option<Entry>, now: int) {
    found.Some? && found.value.policyTag == policy.policyTag && policy.optimistic &&
    found.value.windows.freshUntil <= now < found.value.windows.staleUntil
  }

  // Claiming a free fill and releasing it leaves the fills as they were.
  lemma ClaimThenRelease(before: Table, key: string)
    requires key !in before.fills && forall f :: f in before.closed ==> f < before.next
    ensures var (unlinked, fill) := Unlink(Claim(before, key).0, key);
            fill.Some? &&
            var after := CloseDone(unlinked, fill.value);
            after.fills == before.fills && after.panicked == before.panicked && forall f :: f in after.closed ==>
              f < after.next
  {
  }

  /** One process's engine, over the store and the fills it shares between requests. */
  class Engine {
    const store: BadgerStore
    const table: FillTable
    const digest: string -> string
    const parseTime: string -> Option<int>
    const parseDuration: string -> Option<int>
    const clock: nat -> int
    const origin: (nat, RC.Query) -> RC.FetchReply
    var ticks: nat
    var calls: nat
    ghost var ledger: Ledger

    constructor (store: BadgerStore, table: FillTable, digest: string -> string, parseTime: string -> Option<int>,
                 parseDuration: string -> Option<int>, clock: nat -> int, origin: (nat, RC.Query) -> RC.FetchReply)
      ensures this.store == store && this.table == table && this.digest == digest && this.parseTime == parseTime
      ensures this.parseDuration == parseDuration && this.clock == clock && this.origin == origin
      ensures ticks == 0 && calls == 0 && ledger == Ledger([], map[])
    {
      this.store, this.table, this.digest, this.parseTime := store, table, digest, parseTime;
      this.parseDuration, this.clock, this.origin := parseDuration, clock, origin;
      ticks, calls, ledger := 0, 0, Ledger([], map[]);
    }

    // The reply to the n-th request.
    ghost function ReplyOf(log: seq<RC.Query>, n: nat): RC.FetchReply {
      if n < |log| then origin(n, log[n]) else RC.FetchFailed
    }

    ghost function BodyOf(log: seq<RC.Query>, n: nat): seq<Byte> {
      var reply := ReplyOf(log, n);
      if reply.Reply? then reply.body else []
    }

    // The fields an entry was built from.
    ghost function FieldsOf(log: seq<RC.Query>, d: Dating): Option<Header> {
      var reply := ReplyOf(log, d.call);
      if reply.FetchFailed? then None
      else
        match d.previous
        case None => Some(reply.header)
        case Some(previous) =>
          if reply.status == 304 then Some(MergeRevalidated(previous.response.header, reply.header)) else None
    }

    // The store decision it was built on.
    ghost function DecisionOf(log: seq<RC.Query>, d: Dating, status: int): Decision {
      var fields := FieldsOf(log, d);
      if fields.None? then NO_STORE else DecideStore(parseTime, clock(d.tick), d.policy, status, fields.value)
    }

    // Body and status are those of a reply to a request for the URL: the one the entry was
    // built from, or the one of the entry that was renewed.
    ghost predicate Sourced(ledger: Ledger, history: Files, base: string, entry: Entry, d: Dating) {
      d.source < |ledger.log| && ledger.log[d.source].base == base && ReplyOf(ledger.log, d.source).Reply? &&
      (entry.response.bodyPath != NoPath ==> entry.response.bodyPath in history) &&
      Bytes(history, entry.response) == ReplyOf(ledger.log, d.source).body &&
      entry.response.status == ReplyOf(ledger.log, d.source).status &&
      entry.response.body == [] && entry.response.contentLength == ReplyOf(ledger.log, d.source).contentLength &&
      match d.previous
      case None => d.source == d.call
      case Some(previous) =>
        (base, previous) in ledger.dated && ledger.dated[(base, previous)].tick < d.tick &&
        ledger.dated[(base, previous)].source == d.source
    }

    // The entry was built for the URL under a valid rule's policy, from a reply to a
    // request for that URL or by renewing an entry dated earlier, and its windows are
    // those of the decision taken then.
    ghost predicate Dated(ledger: Ledger, ticks: nat, history: Files, base: string, entry: Entry, d: Dating) {
      d.call < |ledger.log| && ledger.log[d.call].base == base && ledger.log[d.call].request.verb == "GET" &&
      d.tick + 1 < ticks && RulePolicy(parseDuration, d.policy) && entry.policyTag == d.policy.policyTag &&
      FieldsOf(ledger.log, d).Some? && DecisionOf(ledger.log, d, entry.response.status).store &&
      entry.response.header == SanitizeStored(FieldsOf(ledger.log, d).value) &&
      entry.windows == WindowsAt(clock(d.tick + 1), DecisionOf(ledger.log, d, entry.response.status),
                                 HasValidators(FieldsOf(ledger.log, d).value)) &&
      Sourced(ledger, history, base, entry, d)
    }

    ghost predicate LogHolds(ledger: Ledger, ticks: nat, history: Files) {
      forall base, entry :: (base, entry) in ledger.dated ==>
        Dated(ledger, ticks, history, base, entry, ledger.dated[(base, entry)])
    }

    lemma DatedGrows(ledger: Ledger, ticks: nat, history: Files, base: string, entry: Entry, d: Dating,
                     ledger': Ledger, ticks': nat, history': Files)
      requires Dated(ledger, ticks, history, base, entry, d)
      requires Learns(ledger, ledger') && ticks <= ticks' && RangeModel.Grows(history, history')
      ensures Dated(ledger', ticks', history', base, entry, d)
    {
      hide DecideStore, HasValidators, SanitizeStored, RulePolicy, MergeRevalidated, WindowsAt;
      assert ledger'.log[d.call] == ledger.log[d.call] && ledger'.log[d.source] == ledger.log[d.source];
    }

    lemma LogGrows(ledger: Ledger, ticks: nat, history: Files, ledger': Ledger, ticks': nat, history': Files)
      requires LogHolds(ledger, ticks, history) && Learns(ledger, ledger') && ledger'.dated == ledger.dated
      requires ticks <= ticks' && RangeModel.Grows(history, history')
      ensures LogHolds(ledger', ticks', history')
    {
      hide Dated;
      forall base, entry | (base, entry) in ledger'.dated
        ensures Dated(ledger', ticks', history', base, entry, ledger'.dated[(base, entry)])
      {
        DatedGrows(ledger, ticks, history, base, entry, ledger.dated[(base, entry)], ledger', ticks', history');
      }
    }

    // The entry dated, unless it already is.
    ghost function Registered(ledger: Ledger, base: string, entry: Entry, d: Dating): Ledger {
      if (base, entry) in ledger.dated then ledger else ledger.(dated := ledger.dated[(base, entry) := d])
    }

    lemma LogAdds(ledger: Ledger, ticks: nat, history: Files, base: string, entry: Entry, d: Dating)
      requires LogHolds(ledger, ticks, history) && Dated(ledger, ticks, history, base, entry, d)
      ensures var ledger' := Registered(ledger, base, entry, d);
              LogHolds(ledger', ticks, history) && Learns(ledger, ledger') && (base, entry) in ledger'.dated &&
              ledger'.log == ledger.log
    {
      hide Dated;
      var ledger' := Registered(ledger, base, entry, d);
      forall base', entry' | (base', entry') in ledger'.dated
        ensures Dated(ledger', ticks, history, base', entry', ledger'.dated[(base', entry')])
      {
        DatedGrows(ledger, ticks, history, base', entry', ledger'.dated[(base', entry')], ledger', ticks, history);
      }
    }

    // The URL's entries are dated.
    ghost predicate EntriesDated(base: string, st: StoreState, ledger: Ledger) {
      forall k :: k in st.records && RangeModel.IsObjectKey(base, k) && st.records[k].EntryRecord? ==>
        (base, st.records[k].entry) in ledger.dated
    }

    lemma EntriesStayDated(base: string, st: StoreState, st': StoreState, ledger: Ledger, ledger': Ledger,
                           entry: Option<Entry>)
      requires EntriesDated(base, st, ledger) && Learns(ledger, ledger')
      requires entry.Some? ==> (base, entry.value) in ledger'.dated
      requires forall k :: k in st'.records && RangeModel.IsObjectKey(base, k) ==>
                 (k in st.records && st'.records[k] == st.records[k]) ||
                 (entry.Some? && st'.records[k] == EntryRecord(entry.value))
      ensures EntriesDated(base, st', ledger')
    {
    }

    // What a dated entry's windows mean: they are counted from the last store or renewal,
    // with the time to live decided then under the same policy settings.
    ghost predicate Accounted(ledger: Ledger, base: string, entry: Entry, policy: Policy) {
      (base, entry) in ledger.dated &&
      var d := ledger.dated[(base, entry)];
      var decision := DecisionOf(ledger.log, d, entry.response.status);
      SameSettings(d.policy, policy) && entry.windows.freshUntil == clock(d.tick + 1) + decision.ttl &&
      (WithinLimits(decision) ==> Ordered(entry.windows))
    }

    lemma EntryWindows(ledger: Ledger, ticks: nat, history: Files, base: string, entry: Entry, policy: Policy)
      requires LogHolds(ledger, ticks, history) && BarFree(parseDuration) && RulePolicy(parseDuration, policy)
      requires (base, entry) in ledger.dated && entry.policyTag == policy.policyTag
      ensures Accounted(ledger, base, entry, policy)
    {
      hide FieldsOf, RulePolicy, BarFree, SameSettings, HasValidators, SanitizeStored, Sourced, DecideStore;
      var d := ledger.dated[(base, entry)];
      assert Dated(ledger, ticks, history, base, entry, d);
      SameTagSameSettings(parseDuration, d.policy, policy);
      WindowsNest(d, entry.response.status, FieldsOf(ledger.log, d).value);
    }

    lemma WindowsNest(d: Dating, status: int, fields: Header)
      requires RulePolicy(parseDuration, d.policy)
      ensures var decision := DecideStore(parseTime, clock(d.tick), d.policy, status, fields);
              decision.store && WithinLimits(decision) ==>
                Ordered(WindowsAt(clock(d.tick + 1), decision, HasValidators(fields)))
    {
      hide DecideStore, HasValidators, RulePolicy;
    }

    // The invariant for one URL: a log that holds, fresh names, a proper key space, and
    // entries that are dated and carry what was received for this URL.
    ghost predicate Inv(base: string)
      reads this, store
    {
      BarFree(parseDuration) && |ledger.log| == calls && LogHolds(ledger, ticks, store.history) &&
      NamesFresh(store.State()) &&
      KeySpaceOk(digest, base, store.State()) && EntriesDated(base, store.State(), ledger)
    }

    method Now() returns (t: int)
      modifies this`ticks
      ensures t == clock(old(ticks)) && ticks == old(ticks) + 1
      ensures old(LogHolds(ledger, ticks, store.history)) ==> LogHolds(ledger, ticks, store.history)
    {
      if LogHolds(ledger, ticks, store.history) {
        LogGrows(ledger, ticks, store.history, ledger, ticks + 1, store.history);
      }
      t := clock(ticks);
      ticks := ticks + 1;
    }

    lemma LapseInv(base: string, st: StoreState)
      requires NamesFresh(st) && KeySpaceOk(digest, base, st) && EntriesDated(base, st, ledger)
      ensures var st' := Lapse(store.world, st);
              NamesFresh(st') && KeySpaceOk(digest, base, st') && EntriesDated(base, st', ledger) &&
              st'.history == st.history && st'.files == st.files && StaysWithin(base, st, st') &&
              (Sound(st) ==> Sound(st'))
    {
      hide KeySpaceOk, NamesFresh, Sound, StaysWithin;
      LapseKeeps(store.world, digest, base, st);
      NamesStayFresh(st, Lapse(store.world, st));
      EntriesStayDated(base, st, Lapse(store.world, st), ledger, ledger, None);
      LapseWithin(store.world, base, st);
      if Sound(st) { LapseSound(store.world, st); }
    }

    // A lookup reads the names first and a record next; records may lapse at both.
    ghost function AfterLookup(st: StoreState): StoreState {
      Lapse(store.world, Lapse(store.world, st))
    }

    // Where a lookup goes, and what it finds there.
    ghost function LookedKey(t: Turn): string {
      LookupKey(digest, t.base, t.header, VaryAt(AfterLookup(t.st), VaryKey(t.base)))
    }

    ghost function Looked(t: Turn): Option<Entry> {
      Found(digest, t.base, AfterLookup(t.st), t.header)
    }

    method LookupEntry(base: string, h: Header) returns (key: string, entry: Option<Entry>)
      requires Inv(base)
      modifies store
      ensures Inv(base) && store.history == old(store.history) && store.files == old(store.files)
      ensures store.State() == AfterLookup(old(store.State())) && StaysWithin(base, old(store.State()), store.State())
      ensures Sound(old(store.State())) ==> Sound(store.State())
      ensures key == LookupKey(digest, base, h, VaryAt(store.State(), VaryKey(base)))
      ensures entry == Found(digest, base, store.State(), h)
      ensures entry.Some? ==> (base, entry.value) in ledger.dated
    {
      hide LogHolds, BarFree, KeySpaceOk, NamesFresh, LookupKey, Lapse, VaryKey, Sound, StaysWithin;
      ghost var st0 := store.State();
      LapseInv(base, st0);
      var spec := store.GetVary(VaryKey(base));
      ghost var st1 := store.State();
      key := LookupKey(digest, base, h, spec);
      LapseInv(base, st1);
      LapseKeeps(store.world, digest, base, st1);
      entry := store.GetEntry(key);
      WithinTransitive(base, st0, st1, store.State());
      RC.KeysAreObjectKeys(digest, base, [], h, spec);
    }

    // The entry found is fresh.
    ghost predicate IsFresh(t: Turn) {
      FreshFor(t.policy, Looked(t), clock(t.tick))
    }

    // It is stale, within the window of an optimistic policy.
    ghost predicate IsStale(t: Turn) {
      StaleFor(t.policy, Looked(t), clock(t.tick))
    }

    // The request gets a plan.
    ghost predicate Leads(t: Turn) {
      !IsFresh(t) && LookedKey(t) !in t.fills
    }

    // It waits for the plan of another.
    ghost predicate Waits(t: Turn) {
      !IsFresh(t) && !IsStale(t) && LookedKey(t) in t.fills
    }

    ghost function PlanOf(t: Turn): FillPlan {
      NewPlan(t.base, LookedKey(t), t.header, t.policy, t.verb, Looked(t))
    }

    ghost predicate PlanGood(ledger: Ledger, plan: FillPlan) {
      RulePolicy(parseDuration, plan.policy) && (plan.revalidate ==> plan.fallback.Some?) &&
      (plan.fallback.Some? ==> (plan.base, plan.fallback.value) in ledger.dated)
    }

    // One pass of the start loop for a prepared request.
    method Start(base: string, h: Header, verb: string, policy: Policy) returns (r: StartResult)
      requires Inv(base) && RulePolicy(parseDuration, policy)
      modifies store, this`ticks, table
      ensures Inv(base) && store.history == old(store.history) && store.files == old(store.files) &&
              ticks == old(ticks) + 1
      ensures store.State() == AfterLookup(old(store.State())) && StaysWithin(base, old(store.State()), store.State())
      ensures Sound(old(store.State())) ==> Sound(store.State())
      ensures var t := Turn(base, h, verb, policy, old(store.State()), old(ticks), calls, old(table.fills));
              (Looked(t).Some? ==> (base, Looked(t).value) in ledger.dated) &&
              PlanGood(ledger, PlanOf(t)) &&
              (IsFresh(t) ==> r == Answer(EntryResult(Looked(t).value, Hit))) &&
              (IsStale(t) ==>
                 r == if Leads(t) then AnswerAndLead(EntryResult(Looked(t).value, Stale), PlanOf(t))
                      else Answer(EntryResult(Looked(t).value, Stale))) &&
              (Leads(t) && !IsStale(t) ==> r == Lead(PlanOf(t))) &&
              (Waits(t) ==> r == WaitFor(t.fills[LookedKey(t)])) &&
              table.releases == old(table.releases) &&
              table.Value() == if Leads(t) then Claim(old(table.Value()), LookedKey(t)).0 else old(table.Value())
    {
      hide LogHolds, BarFree, KeySpaceOk, NamesFresh, EntriesDated, Found, LookupKey, RulePolicy, Sound, StaysWithin,
           AfterLookup;
      var key, found := LookupEntry(base, h);
      var now := Now();
      if found.Some? && found.value.policyTag == policy.policyTag {
        if now < found.value.windows.freshUntil {
          return Answer(EntryResult(found.value, Hit));
        }
        if policy.optimistic && now < found.value.windows.staleUntil {
          var _, first := table.ClaimFill(key);
          if first {
            return AnswerAndLead(EntryResult(found.value, Stale), NewPlan(base, key, h, policy, verb, found));
          }
          return Answer(EntryResult(found.value, Stale));
        }
      }
      var fill, leader := table.ClaimFill(key);
      if leader {
        r := Lead(NewPlan(base, key, h, policy, verb, found));
      } else {
        r := WaitFor(fill);
      }
    }

    // Puts an entry into the URL's key space.
    method StoreResponse(base: string, entry: Entry, names: seq<string>, ghost h: Header)
      requires Inv(base) && entry.key == StorageKey(digest, base, names, h) && (base, entry) in ledger.dated
      modifies store
      ensures Inv(base) && store.history == old(store.history) && StaysWithin(base, old(store.State()), store.State())
      ensures store.State() == StoreResponseState(store.world, old(store.State()), base, entry, names)
    {
      hide LogHolds, BarFree, KeySpaceOk, EntriesDated, NamesFresh, Lapse, DeletePrefixState, DeleteState,
           PutEntryState, StorageKey, StaysWithin;
      ghost var st := store.State();
      StoreInv(base, st, entry, names, h);
      Kinds(base);
      RC.KeysAreObjectKeys(digest, base, names, h, None);
      PlainStorage(digest, base, names, h);
      if names == [] {
        var _ := store.DeletePrefix(VariantPrefix(base));
        store.Delete(VaryKey(base));
        store.PutEntry(ResponseKey(base), entry);
      } else {
        var existing := store.GetVary(VaryKey(base));
        if existing.Some? && existing.value != names {
          var _ := store.DeletePrefix(VariantPrefix(base));
        }
        store.Delete(ResponseKey(base));
        store.PutVary(VaryKey(base), names);
        store.PutEntry(entry.key, entry);
      }
    }

    lemma StoreInv(base: string, st: StoreState, entry: Entry, names: seq<string>, h: Header)
      requires NamesFresh(st) && KeySpaceOk(digest, base, st) && EntriesDated(base, st, ledger)
      requires entry.key == StorageKey(digest, base, names, h) && (base, entry) in ledger.dated
      ensures var st' := StoreResponseState(store.world, st, base, entry, names);
              NamesFresh(st') && KeySpaceOk(digest, base, st') && EntriesDated(base, st', ledger) &&
              st'.history == st.history &&
              StaysWithin(base, st, st')
    {
      hide KeySpaceOk, NamesFresh, StoreResponseState, StorageKey, StaysWithin;
      var st' := StoreResponseState(store.world, st, base, entry, names);
      StoreKeeps(store.world, digest, base, st, entry, names, h);
      RC.KeysAreObjectKeys(digest, base, names, h, None);
      PlainStorage(digest, base, names, h);
      StoreShape(store.world, st, base, entry, names);
      StoreWithin(store.world, st, base, entry, names);
      NamesStayFresh(st, st');
      EntriesStayDated(base, st, st', ledger, ledger, Some(entry));
    }

    method Cleanup(base: string, r: StoredResponse)
      requires Inv(base)
      modifies store
      ensures Inv(base) && store.history == old(store.history) && StaysWithin(base, old(store.State()), store.State())
      ensures store.State() == if r.cleanupPath then RemoveBody(old(store.State()), r.bodyPath) else old(store.State())
    {
      hide LogHolds, BarFree, StaysWithin;
      FilesWithin(base, store.State(), store.State());
      if r.cleanupPath {
        FilesInv(base, store.State(), RemoveBody(store.State(), r.bodyPath));
        store.RemoveBodyPath(r.bodyPath);
      }
    }

    // Changes to files alone.
    lemma FilesInv(base: string, st: StoreState, st': StoreState)
      requires KeySpaceOk(digest, base, st) && NamesFresh(st) && EntriesDated(base, st, ledger)
      requires st'.records == st.records && st'.expired == st.expired && st.names <= st'.names
      requires RangeModel.Grows(st.history, st'.history) && (OnlyLosesFiles(st, st') || NamesFresh(st'))
      ensures KeySpaceOk(digest, base, st') && NamesFresh(st') && EntriesDated(base, st', ledger) &&
              StaysWithin(base, st, st')
    {
      if OnlyLosesFiles(st, st') { NamesStayFresh(st, st'); }
      LossKeeps(digest, base, st, st');
      FilesWithin(base, st, st');
      EntriesStayDated(base, st, st', ledger, ledger, None);
    }

    // Moves a response body into the blob directory.
    method PersistBody(base: string, r: StoredResponse) returns (persisted: StoredResponse)
      requires Inv(base) && (r.cleanupPath ==> r.bodyPath == NoPath || (r.bodyPath.Temp? && r.bodyPath in store.files))
      modifies store
      ensures Inv(base) && RangeModel.Grows(old(store.history), store.history)
      ensures Bytes(store.history, persisted) == Bytes(old(store.history), r) &&
              StaysWithin(base, old(store.State()), store.State())
      ensures persisted.status == r.status && persisted.header == r.header && persisted.body == r.body
      ensures if r.cleanupPath && r.bodyPath != NoPath
              then persisted == r.(bodyPath := Blob(r.bodyPath.id), cleanupPath := false) &&
                   store.State() == ImportState(old(store.State()), r.bodyPath)
              else persisted.bodyPath == r.bodyPath && persisted.cleanupPath == r.cleanupPath &&
                   (r.contentLength != 0 ==> persisted.contentLength == r.contentLength) &&
                   (r.contentLength == 0 ==> persisted.contentLength == |r.body|) &&
                   store.State() == old(store.State())
      ensures persisted.bodyPath != NoPath && r.cleanupPath ==> persisted.bodyPath in store.history
    {
      hide LogHolds, BarFree, KeySpaceOk, StaysWithin;
      if r.bodyPath == NoPath || !r.cleanupPath {
        FilesWithin(base, store.State(), store.State());
        return if r.contentLength == 0 && r.body != [] then r.(contentLength := |r.body|) else r;
      }
      ImportFresh(store.State(), r.bodyPath);
      ghost var st' := ImportState(store.State(), r.bodyPath);
      FilesInv(base, store.State(), st');
      LogGrows(ledger, ticks, store.history, ledger, ticks, st'.history);
      var blob := store.ImportBody(r.bodyPath);
      persisted := r.(bodyPath := blob, cleanupPath := false);
    }

    // The given request was answered like this.
    ghost predicate Answered(log: seq<RC.Query>, base: string, call: nat, status: int, reply: Header) {
      call < |log| && log[call].base == base && log[call].request.verb == "GET" &&
      ReplyOf(log, call).Reply? && ReplyOf(log, call).status == status && ReplyOf(log, call).header == reply
    }

    // A renewal keeps its names, and so its place in the key space.
    ghost predicate NamesKept(base: string, h: Header, policy: Policy, entry: Entry, reply: Header, tick: nat,
                              st: StoreState) {
      var d := DecideStore(parseTime, clock(tick), policy, entry.response.status,
                           MergeRevalidated(entry.response.header, reply));
      d.store ==> Found(digest, base, st, h) == Some(entry) && RC.OptionalNames(d.vary) == VaryAt(st, VaryKey(base))
    }

    // In fields: the Vary of the merged fields lists the names recorded for the URL. A 304
    // without Vary leaves the list of the entry; whether those are the names recorded,
    // after the fill, is for ConfirmedNamesIff.
    lemma NamesKeptIff(base: string, h: Header, policy: Policy, entry: Entry, reply: Header, tick: nat, st: StoreState)
      requires KeySpaceOk(digest, base, st) && Found(digest, base, st, h) == Some(entry)
      ensures var merged, spec := MergeRevalidated(entry.response.header, reply), VaryAt(st, VaryKey(base));
              NamesKept(base, h, policy, entry, reply, tick, st) <==>
                !DecideStore(parseTime, clock(tick), policy, entry.response.status, merged).store ||
                ParseVary(Values(merged, "Vary")) == Some(if spec.Some? then spec.value else [])
      ensures "Connection" !in entry.response.header && "Vary" !in SanitizeStored(reply) ==>
                Values(MergeRevalidated(entry.response.header, reply), "Vary") == Values(entry.response.header, "Vary")
    {
      hide MergeRevalidated, IsVariant, ParseCacheControl, Ttl, ParseVary, HasValidators;
      if "Connection" !in entry.response.header && "Vary" !in SanitizeStored(reply) {
        MergedVary(entry.response.header, reply);
      }
    }

    lemma MergedVary(fields: Header, reply: Header)
      requires "Connection" !in fields && "Vary" !in SanitizeStored(reply)
      ensures Values(MergeRevalidated(fields, reply), "Vary") == Values(fields, "Vary")
    {
      hide StripHopByHop;
      RC.SanitizePlain(fields);
    }

    // The entry a renewal builds, if the decision lets it be stored.
    ghost function RenewedEntry(base: string, h: Header, policy: Policy, entry: Entry, reply: Header,
                                tick: nat): Option<(Entry, seq<string>)> {
      var merged := MergeRevalidated(entry.response.header, reply);
      var d := DecideStore(parseTime, clock(tick), policy, entry.response.status, merged);
      if !d.store then None
      else Some((BuildEntry(clock(tick + 1), StorageKey(digest, base, d.vary, h), policy, d,
                            StoredResponse(entry.response.status, merged, entry.response.body, entry.response.bodyPath,
                                           entry.response.contentLength, false)), d.vary))
    }

    // The store after the renewal of an entry.
    ghost function RenewedState(st: StoreState, base: string, h: Header, policy: Policy, entry: Entry, reply: Header,
                                tick: nat): StoreState {
      match RenewedEntry(base, h, policy, entry, reply, tick)
      case None => st
      case Some((updated, names)) => StoreResponseState(store.world, st, base, updated, names)
    }

    // Renews an entry after a 304. Body and status stay, and the windows are those of a
    // fill with the merged fields; an entry that is no longer storable is only served.
    // The store stays sound if the names stay, and only then unless a record expires.
    method CompleteRevalidation(base: string, h: Header, policy: Policy, entry: Entry, reply: Header, ghost call: nat)
      returns (r: Result)
      requires Inv(base) && (base, entry) in ledger.dated && RulePolicy(parseDuration, policy)
      requires Answered(ledger.log, base, call, 304, reply)
      modifies store, this`ticks, this`ledger
      ensures Inv(base) && store.history == old(store.history) && StaysWithin(base, old(store.State()), store.State())
      ensures Learns(old(ledger), ledger) && ledger.log == old(ledger.log)
      ensures r.state == Hit && !r.cleanupPath && r.status == entry.response.status && r.body == entry.response.body
      ensures r.bodyPath == entry.response.bodyPath
      ensures store.State() == RenewedState(old(store.State()), base, h, policy, entry, reply, old(ticks))
      ensures var st := old(store.State());
              Sound(st) && NamesKept(base, h, policy, entry, reply, old(ticks), st) ==> Sound(store.State())
      ensures var st, renewed := old(store.State()), RenewedEntry(base, h, policy, entry, reply, old(ticks));
              renewed.Some? && Sound(st) && Found(digest, base, st, h) == Some(entry) &&
              entry.response.bodyPath != NoPath && !store.expired ==>
                (Sound(store.State()) <==> RC.OptionalNames(renewed.value.1) == VaryAt(st, VaryKey(base)))
    {
      hide LogHolds, BarFree, KeySpaceOk, EntriesDated, NamesFresh, Sound, Found, StorageKey, DecideStore,
           MergeRevalidated, SanitizeStored, StoreResponseState, WindowsAt, HasValidators, ParseAge, RulePolicy,
           StaysWithin, Answered;
      ghost var st, tick := store.State(), ticks;
      DatedFacts(ledger, ticks, store.history, base, entry);
      var merged := MergeRevalidated(entry.response.header, reply);
      var decidedAt := Now();
      var d := DecideStore(parseTime, decidedAt, policy, entry.response.status, merged);
      if !d.store {
        FilesWithin(base, st, st);
        return EntryResult(entry, Hit);
      }
      var builtAt := Now();
      var effective := StoredResponse(entry.response.status, merged, entry.response.body, entry.response.bodyPath,
                                      entry.response.contentLength, false);
      var updated := BuildEntry(builtAt, StorageKey(digest, base, d.vary, h), policy, d, effective);
      RegisterRenewal(ledger, ticks, store.history, base, policy, entry, reply, call, tick, updated);
      LearnInv(base, st, ledger, Registered(ledger, base, updated,
                                            RenewalDating(ledger, base, policy, entry, call, tick)));
      ledger := Registered(ledger, base, updated, RenewalDating(ledger, base, policy, entry, call, tick));
      StoreResponse(base, updated, d.vary, h);
      RenewalSound(st, base, updated, d.vary, h, entry);
      r := EntryResult(updated, Hit);
    }

    ghost function RenewalDating(ledger: Ledger, base: string, policy: Policy, entry: Entry, call: nat,
                                 tick: nat): Dating
      requires (base, entry) in ledger.dated
    {
      Dating(policy, call, tick, ledger.dated[(base, entry)].source, Some(entry))
    }

    lemma RegisterRenewal(ledger: Ledger, ticks: nat, history: Files, base: string, policy: Policy, entry: Entry,
                          reply: Header,
                          call: nat, tick: nat, updated: Entry)
      requires LogHolds(ledger, ticks, history) && (base, entry) in ledger.dated &&
               Answered(ledger.log, base, call, 304, reply)
      requires RulePolicy(parseDuration, policy) && tick + 1 < ticks && ledger.dated[(base, entry)].tick < tick
      requires var merged := MergeRevalidated(entry.response.header, reply);
               var d := DecideStore(parseTime, clock(tick), policy, entry.response.status, merged);
               d.store && updated.policyTag == policy.policyTag && updated.response.header == SanitizeStored(merged) &&
               updated.windows == WindowsAt(clock(tick + 1), d, HasValidators(merged)) &&
               updated.response == entry.response.(header := SanitizeStored(merged), cleanupPath := false)
      ensures var ledger' := Registered(ledger, base, updated, RenewalDating(ledger, base, policy, entry, call, tick));
              LogHolds(ledger', ticks, history) && Learns(ledger, ledger') && (base, updated) in ledger'.dated &&
              ledger'.log == ledger.log
    {
      hide LogHolds, RulePolicy, DecideStore, HasValidators, SanitizeStored, MergeRevalidated, WindowsAt, Registered;
      DatedFacts(ledger, ticks, history, base, entry);
      var d := RenewalDating(ledger, base, policy, entry, call, tick);
      assert Dated(ledger, ticks, history, base, updated, d);
      LogAdds(ledger, ticks, history, base, updated, d);
    }

    lemma DatedFacts(ledger: Ledger, ticks: nat, history: Files, base: string, entry: Entry)
      requires LogHolds(ledger, ticks, history) && (base, entry) in ledger.dated
      ensures var d := ledger.dated[(base, entry)];
              d.tick < ticks && d.source < |ledger.log| && ledger.log[d.source].base == base &&
              ReplyOf(ledger.log, d.source).Reply? &&
              Bytes(history, entry.response) == ReplyOf(ledger.log, d.source).body && entry.response.body == [] &&
              entry.response.contentLength == ReplyOf(ledger.log, d.source).contentLength &&
              entry.response.status == ReplyOf(ledger.log, d.source).status &&
              (entry.response.bodyPath != NoPath ==> entry.response.bodyPath in history)
    {
      assert Dated(ledger, ticks, history, base, entry, ledger.dated[(base, entry)]);
    }

    lemma LearnInv(base: string, st: StoreState, ledger: Ledger, ledger': Ledger)
      requires EntriesDated(base, st, ledger) && Learns(ledger, ledger')
      ensures EntriesDated(base, st, ledger')
    {
    }

    // What a renewal does to the store's soundness.
    lemma RenewalSound(st: StoreState, base: string, updated: Entry, names: seq<string>, h: Header, entry: Entry)
      requires KeySpaceOk(digest, base, st) && updated.key == StorageKey(digest, base, names, h)
      requires updated.response.bodyPath == entry.response.bodyPath
      ensures var st' := StoreResponseState(store.world, st, base, updated, names);
              Sound(st) && Found(digest, base, st, h) == Some(entry) &&
              RC.OptionalNames(names) == VaryAt(st, VaryKey(base)) ==>
                Sound(st')
      ensures var st' := StoreResponseState(store.world, st, base, updated, names);
              Sound(st) && Found(digest, base, st, h) == Some(entry) && entry.response.bodyPath != NoPath &&
              !st'.expired ==>
                (Sound(st') <==> RC.OptionalNames(names) == VaryAt(st, VaryKey(base)))
    {
      hide KeySpaceOk, Sound, Found, StorageKey, StoreResponseState;
      if Sound(st) && Found(digest, base, st, h) == Some(entry) {
        if RC.OptionalNames(names) == VaryAt(st, VaryKey(base)) {
          RenewalBodies.RenewalKeepsSound(store.world, digest, base, st, updated, names, h);
        }
        if entry.response.bodyPath != NoPath && !StoreResponseState(store.world, st, base, updated, names).expired {
          RenewalBodies.RenewalKeepsBodyIff(store.world, digest, base, st, updated, names, h);
        }
      }
    }

    // Serves and renews the fallback after a 304 to a conditional request, releasing
    // the plan; any other response is left to CompleteFill.
    method RevalidatedResult(plan: FillPlan, status: int, reply: Header, ghost call: nat) returns (r: Option<Result>)
      requires Inv(plan.base) && PlanGood(ledger, plan) && Answered(ledger.log, plan.base, call, status, reply)
      modifies store, this`ticks, this`ledger, table
      ensures Inv(plan.base) && store.history == old(store.history) &&
              StaysWithin(plan.base, old(store.State()), store.State())
      ensures Learns(old(ledger), ledger) && ledger.log == old(ledger.log)
      ensures r.Some? <==> plan.revalidate && status == 304 && plan.fallback.Some?
      ensures r.Some? ==>
                r.value.state == Hit && !r.value.cleanupPath && r.value.status == plan.fallback.value.response.status &&
                r.value.bodyPath == plan.fallback.value.response.bodyPath &&
                r.value.body == plan.fallback.value.response.body &&
                Released(old(table.Value()), old(table.releases), plan.key) &&
                store.State() == RenewedState(old(store.State()), plan.base, plan.header, plan.policy,
                                              plan.fallback.value, reply, old(ticks)) &&
                (Sound(old(store.State())) && PlanNamesKept(plan, reply, old(ticks), old(store.State())) ==>
                   Sound(store.State()))
      ensures r.None? ==>
                store.State() == old(store.State()) && table.Value() == old(table.Value()) &&
                table.releases == old(table.releases) &&
                ticks == old(ticks) && ledger == old(ledger)
    {
      hide LogHolds, BarFree, KeySpaceOk, EntriesDated, NamesFresh, RenewedState, NamesKept, RulePolicy, Sound,
           StaysWithin;
      if !(plan.revalidate && status == 304 && plan.fallback.Some?) {
        FilesWithin(plan.base, store.State(), store.State());
        return None;
      }
      var renewed := CompleteRevalidation(plan.base, plan.header, plan.policy, plan.fallback.value, reply, call);
      table.ReleaseFill(plan.key);
      r := Some(renewed);
    }

    ghost predicate PlanNamesKept(plan: FillPlan, reply: Header, tick: nat, st: StoreState) {
      plan.fallback.Some? ==> NamesKept(plan.base, plan.header, plan.policy, plan.fallback.value, reply, tick, st)
    }

    // One release call for the key, which unlinks and closes its fill.
    ghost predicate Released(before: Table, releases: seq<string>, key: string)
      reads table
    {
      table.releases == releases + [key] &&
      var (unlinked, fill) := Unlink(before, key);
      table.Value() == if fill.Some? then CloseDone(unlinked, fill.value) else unlinked
    }

    // The response is the reply to the given request for the URL, its body in a
    // temporary file.
    ghost predicate Received(log: seq<RC.Query>, st: StoreState, base: string, call: nat, response: StoredResponse) {
      Answered(log, base, call, response.status, response.header) && response.cleanupPath && response.body == [] &&
      response.bodyPath.Temp? && response.bodyPath in st.files && response.bodyPath in st.history &&
      st.history[response.bodyPath] == st.files[response.bodyPath] == ReplyOf(log, call).body &&
      response.contentLength == ReplyOf(log, call).contentLength
    }

    // The entry a fill builds, and its names, if decision and method let it be stored.
    ghost function FilledEntry(plan: FillPlan, response: StoredResponse, tick: nat): Option<(Entry, seq<string>)> {
      var d := DecideStore(parseTime, clock(tick), plan.policy, response.status, response.header);
      if !d.store || plan.verb !in {"GET", "HEAD"} then None
      else
        var names := EffectiveVary(plan.header, Some(response.header), d.vary);
        Some((BlobEntry(plan, response, d, names, tick + 1), names))
    }

    ghost function BlobEntry(plan: FillPlan, response: StoredResponse, d: Decision, names: seq<string>,
                             tick: nat): Entry {
      var blob := if response.bodyPath.Temp? then Blob(response.bodyPath.id) else NoPath;
      BuildEntry(clock(tick), StorageKey(digest, plan.base, names, plan.header), plan.policy, d,
                 response.(bodyPath := blob, cleanupPath := false))
    }

    // The store after a saved reply is stored or dropped.
    ghost function FilledState(st: StoreState, plan: FillPlan, response: StoredResponse, tick: nat): StoreState
      requires response.bodyPath.Temp? && response.bodyPath in st.files
    {
      match FilledEntry(plan, response, tick)
      case None => RemoveBody(st, response.bodyPath)
      case Some((entry, names)) =>
        StoreResponseState(store.world, ImportState(st, response.bodyPath), plan.base, entry, names)
    }

    // A reply with its body saved under the next file name.
    ghost function SavedReply(st: StoreState, reply: RC.FetchReply): StoredResponse
      requires reply.Reply?
    {
      StoredResponse(reply.status, reply.header, [], Temp(st.names), reply.contentLength, true)
    }

    ghost function AfterReply(st: StoreState, plan: FillPlan, reply: RC.FetchReply, tick: nat): StoreState
      requires reply.Reply?
    {
      FilledState(CreateTempState(st, reply.body), plan, SavedReply(st, reply), tick)
    }

    // The reply confirms the entry a conditional plan asks about.
    ghost predicate Confirms(plan: FillPlan, reply: RC.FetchReply) {
      reply.Reply? && plan.revalidate && reply.status == 304 && plan.fallback.Some?
    }

    ghost function ConfirmedState(st: StoreState, plan: FillPlan, reply: RC.FetchReply, tick: nat): StoreState
      requires Confirms(plan, reply)
    {
      RenewedState(st, plan.base, plan.header, plan.policy, plan.fallback.value, reply.header, tick)
    }

    // The store after a plan is carried out without streaming: as it was if the request
    // fails, with the entry renewed and the empty body left behind if that is confirmed,
    // and with the reply stored, if it may be, in all other cases.
    ghost function AfterPlan(st: StoreState, plan: FillPlan, reply: RC.FetchReply, tick: nat): StoreState {
      if reply.FetchFailed? then st
      else if Confirms(plan, reply) then ConfirmedState(CreateTempState(st, reply.body), plan, reply, tick)
      else AfterReply(st, plan, reply, tick)
    }

    // The same behind a stale answer, where the empty body is removed.
    ghost function AfterRefill(st: StoreState, plan: FillPlan, reply: RC.FetchReply, tick: nat): StoreState {
      if Confirms(plan, reply) then RemoveBody(AfterPlan(st, plan, reply, tick), Temp(st.names))
      else AfterPlan(st, plan, reply, tick)
    }

    // What is streamed before a copy fails.
    ghost function Copied(body: seq<Byte>, faults: Faults): seq<Byte> {
      if faults.copy && faults.copied < |body| then body[..faults.copied] else body
    }

    // The store after a plan is carried out with its reply streamed: nothing is saved of a
    // confirmation, or of a reply that is too large or has nowhere to go, and nothing is
    // left of a copy that failed.
    ghost function AfterStream(st: StoreState, plan: FillPlan, reply: RC.FetchReply, faults: Faults,
                               tick: nat): StoreState {
      if reply.FetchFailed? then st
      else if Confirms(plan, reply) then ConfirmedState(st, plan, reply, tick)
      else AfterStreaming(st, plan, reply, faults, tick)
    }

    ghost function AfterStreaming(st: StoreState, plan: FillPlan, reply: RC.FetchReply, faults: Faults,
                                  tick: nat): StoreState
      requires reply.Reply?
    {
      if faults.tooLarge || faults.tempDir || faults.tempFile then st
      else if faults.copy then RemoveBody(CreateTempState(st, Copied(reply.body, faults)), Temp(st.names))
      else AfterReply(st, plan, reply, tick)
    }

    // Stores a fetched response if policy and request allow it, and releases the plan.
    method CompleteFill(plan: FillPlan, response: StoredResponse, ghost call: nat)
      requires Inv(plan.base) && PlanGood(ledger, plan) &&
               Received(ledger.log, store.State(), plan.base, call, response)
      requires !(plan.revalidate && response.status == 304 && plan.fallback.Some?)
      modifies store, this`ticks, this`ledger, table
      ensures Inv(plan.base) && Released(old(table.Value()), old(table.releases), plan.key)
      ensures RangeModel.Grows(old(store.history), store.history) &&
              StaysWithin(plan.base, old(store.State()), store.State())
      ensures Learns(old(ledger), ledger) && ledger.log == old(ledger.log) && response.bodyPath !in store.files
      ensures store.State() == FilledState(old(store.State()), plan, response, old(ticks))
      ensures match FilledEntry(plan, response, old(ticks))
              case None => store.State() == RemoveBody(old(store.State()), response.bodyPath)
              case Some((entry, names)) =>
                store.State() == StoreResponseState(store.world, ImportState(old(store.State()), response.bodyPath),
                                                    plan.base, entry, names)
      ensures Directives.Forbids(plan.policy, response.header) ==>
                store.State() == RemoveBody(old(store.State()), response.bodyPath)
      ensures Sound(old(store.State())) ==> Sound(store.State())
    {
      hide LogHolds, BarFree, KeySpaceOk, EntriesDated, NamesFresh, DecideStore, StoreResponseState, Sound, StorageKey,
           EffectiveVary, StaysWithin, RulePolicy, BuildEntry, Directives.Forbids;
      ghost var st0, tick := store.State(), ticks;
      if Directives.Forbids(plan.policy, response.header) {
        Directives.ForbiddenIsRefused(parseTime, clock(tick), plan.policy, response.status, response.header);
      }
      var decidedAt := Now();
      var d := DecideStore(parseTime, decidedAt, plan.policy, response.status, response.header);
      if !d.store || plan.verb !in {"GET", "HEAD"} {
        RemoveTempSound(st0, response.bodyPath);
        Cleanup(plan.base, response);
      } else {
        var names := EffectiveVary(plan.header, Some(response.header), d.vary);
        StoreFilled(plan, response, d, names, call);
      }
      table.ReleaseFill(plan.key);
    }

    // Moves a fetched body into the blob directory and stores its entry.
    method StoreFilled(plan: FillPlan, response: StoredResponse, d: Decision, names: seq<string>, ghost call: nat)
      requires Inv(plan.base) && RulePolicy(parseDuration, plan.policy) &&
               Received(ledger.log, store.State(), plan.base, call, response)
      requires ticks > 0 && d.store && d == DecideStore(parseTime, clock(ticks - 1), plan.policy, response.status,
                                                        response.header)
      modifies store, this`ticks, this`ledger
      ensures Inv(plan.base) && RangeModel.Grows(old(store.history), store.history)
      ensures StaysWithin(plan.base, old(store.State()), store.State())
      ensures Learns(old(ledger), ledger) && ledger.log == old(ledger.log) && response.bodyPath !in store.files
      ensures store.State() == StoreResponseState(store.world, ImportState(old(store.State()), response.bodyPath),
                                                  plan.base,
                                                  BlobEntry(plan, response, d, names, old(ticks)), names)
      ensures Sound(old(store.State())) ==> Sound(store.State())
    {
      hide LogHolds, BarFree, KeySpaceOk, EntriesDated, NamesFresh, DecideStore, StoreResponseState, Sound, StorageKey,
           WindowsAt, SanitizeStored, HasValidators, ParseAge, StaysWithin, RulePolicy;
      ghost var st0, tick := store.State(), ticks - 1;
      ImportedIsLoose(st0, response.bodyPath);
      var persisted := PersistBody(plan.base, response);
      ghost var st1 := store.State();
      var builtAt := Now();
      var entry := BuildEntry(builtAt, StorageKey(digest, plan.base, names, plan.header), plan.policy, d, persisted);
      ghost var dating := Dating(plan.policy, call, tick, call, None);
      RegisterFill(ledger, ticks, store.history, plan.base, plan.policy, persisted, d, call, tick, entry);
      LearnInv(plan.base, st1, ledger, Registered(ledger, plan.base, entry, dating));
      ledger := Registered(ledger, plan.base, entry, dating);
      StoredStaysSound(plan.base, st1, entry, names, plan.header);
      StoreResponse(plan.base, entry, names, plan.header);
      StoreKeepsAway(st1, plan.base, entry, names, plan.header, response.bodyPath);
      WithinTransitive(plan.base, st0, st1, store.State());
    }

    lemma RegisterFill(ledger: Ledger, ticks: nat, history: Files, base: string, policy: Policy,
                       response: StoredResponse, d: Decision,
                       call: nat, tick: nat, entry: Entry)
      requires LogHolds(ledger, ticks, history) && Answered(ledger.log, base, call, response.status, response.header)
      requires RulePolicy(parseDuration, policy) && tick + 1 < ticks && d.store
      requires d == DecideStore(parseTime, clock(tick), policy, response.status, response.header)
      requires response.body == [] && response.bodyPath in history &&
               response.contentLength == ReplyOf(ledger.log, call).contentLength
      requires Bytes(history, response) == ReplyOf(ledger.log, call).body
      requires entry == BuildEntry(clock(tick + 1), entry.key, policy, d, response)
      ensures var ledger' := Registered(ledger, base, entry, Dating(policy, call, tick, call, None));
              LogHolds(ledger', ticks, history) && Learns(ledger, ledger') && (base, entry) in ledger'.dated &&
              ledger'.log == ledger.log
    {
      hide LogHolds, RulePolicy, DecideStore, HasValidators, SanitizeStored, WindowsAt, Registered, ParseAge;
      var dating := Dating(policy, call, tick, call, None);
      assert Dated(ledger, ticks, history, base, entry, dating);
      LogAdds(ledger, ticks, history, base, entry, dating);
    }

    lemma RemoveTempSound(st: StoreState, path: BodyPath)
      requires path.Temp?
      ensures Sound(st) ==> Sound(RemoveBody(st, path))
    {
      if Sound(st) { RemoveUnreferenced(st, path); }
    }

    lemma ImportedIsLoose(st: StoreState, path: BodyPath)
      requires path.Temp? && path in st.files
      ensures Sound(st) ==> Sound(ImportState(st, path)) && RangeModel.Loose(ImportState(st, path), Blob(path.id))
      ensures path !in ImportState(st, path).files
    {
      if Sound(st) { ImportLoose(st, path); }
    }

    lemma StoredStaysSound(base: string, st: StoreState, entry: Entry, names: seq<string>, h: Header)
      requires entry.key == StorageKey(digest, base, names, h) && entry.response.bodyPath.Blob?
      ensures Sound(st) && RangeModel.Loose(st, entry.response.bodyPath) ==>
                Sound(StoreResponseState(store.world, st, base, entry, names))
    {
      hide Sound;
      RC.KeysAreObjectKeys(digest, base, names, h, None);
      PlainStorage(digest, base, names, h);
      if Sound(st) && RangeModel.Loose(st, entry.response.bodyPath) {
        RenewalBodies.FillKeepsSound(store.world, st, base, entry, names);
      }
    }

    lemma StoreKeepsAway(st: StoreState, base: string, entry: Entry, names: seq<string>, h: Header, path: BodyPath)
      requires path !in st.files && entry.key == StorageKey(digest, base, names, h)
      ensures path !in StoreResponseState(store.world, st, base, entry, names).files
    {
      hide StoreResponseState;
      RC.KeysAreObjectKeys(digest, base, names, h, None);
      PlainStorage(digest, base, names, h);
      StoreShape(store.world, st, base, entry, names);
    }

    method AbortFill(plan: FillPlan, response: StoredResponse)
      requires Inv(plan.base) && (response.cleanupPath ==> response.bodyPath.Temp?)
      modifies store, table
      ensures Inv(plan.base) && Released(old(table.Value()), old(table.releases), plan.key)
      ensures store.history == old(store.history) && StaysWithin(plan.base, old(store.State()), store.State())
      ensures store.State() == if response.cleanupPath then RemoveBody(old(store.State()), response.bodyPath)
                else old(store.State())
      ensures Sound(old(store.State())) ==> Sound(store.State())
    {
      hide LogHolds, BarFree, KeySpaceOk, EntriesDated, NamesFresh, StaysWithin, Sound;
      if response.cleanupPath { RemoveTempSound(store.State(), response.bodyPath); }
      Cleanup(plan.base, response);
      table.ReleaseFill(plan.key);
    }

    // The stale answer to a failed fetch, exactly when policy and windows allow one.
    method HandleFillError(plan: FillPlan) returns (r: Option<Result>)
      modifies this`ticks, table
      ensures Released(old(table.Value()), old(table.releases), plan.key) && ticks >= old(ticks)
      ensures old(LogHolds(ledger, ticks, store.history)) ==> LogHolds(ledger, ticks, store.history)
      ensures r == if plan.fallback.Some? && CanServeStaleOnError(clock(old(ticks)), plan.policy, plan.fallback.value)
                   then Some(EntryResult(plan.fallback.value, Stale)) else None
    {
      hide LogHolds;
      r := None;
      if plan.fallback.Some? {
        var now := Now();
        if CanServeStaleOnError(now, plan.policy, plan.fallback.value) {
          r := Some(EntryResult(plan.fallback.value, Stale));
        }
      }
      table.ReleaseFill(plan.key);
    }

    // Asks the origin; the request is logged for the URL.
    method Open(base: string, request: RC.Request) returns (reply: RC.FetchReply)
      requires Inv(base) && request.verb == "GET"
      modifies this`calls, this`ledger
      ensures Inv(base) && reply == origin(old(calls), RC.Query(base, request)) && calls == old(calls) + 1
      ensures ledger == old(ledger).(log := old(ledger).log + [RC.Query(base, request)]) && Learns(old(ledger), ledger)
      ensures reply.Reply? ==> Answered(ledger.log, base, old(calls), reply.status, reply.header) &&
                               ReplyOf(ledger.log, old(calls)) == reply
    {
      hide LogHolds, BarFree, KeySpaceOk, NamesFresh;
      ghost var ledger' := ledger.(log := ledger.log + [RC.Query(base, request)]);
      LogGrows(ledger, ticks, store.history, ledger', ticks, store.history);
      LearnInv(base, store.State(), ledger, ledger');
      reply := origin(calls, RC.Query(base, request));
      ledger := ledger';
      calls := calls + 1;
    }

    // Saves received bytes in a temporary file.
    method Save(base: string, content: seq<Byte>) returns (path: BodyPath)
      requires Inv(base)
      modifies store
      ensures Inv(base) && path.Temp? && path in store.files && RangeModel.Holds(store.history, path, content) &&
              store.files[path] == content
      ensures path == Temp(old(store.names)) && store.State() == CreateTempState(old(store.State()), content)
      ensures RangeModel.Grows(old(store.history), store.history) &&
              StaysWithin(base, old(store.State()), store.State())
      ensures store.records == old(store.records) && (Sound(old(store.State())) ==> Sound(store.State()))
    {
      hide LogHolds, BarFree, KeySpaceOk, Sound, StaysWithin;
      ghost var st := store.State();
      CreateTempFresh(st, content);
      FilesInv(base, st, CreateTempState(st, content));
      LogGrows(ledger, ticks, st.history, ledger, ticks, CreateTempState(st, content).history);
      if Sound(st) { CreateTempSound(st, content); }
      path := store.CreateTemp(content);
    }

    // A plan's request to the origin, with the body saved.
    method FetchPlan(plan: FillPlan) returns (r: Option<StoredResponse>)
      requires Inv(plan.base) && PlanGood(ledger, plan)
      modifies store, this`calls, this`ledger
      ensures Inv(plan.base) && PlanGood(ledger, plan) && Learns(old(ledger), ledger)
      ensures ledger.log == old(ledger).log + [PlanQuery(plan)]
      ensures StaysWithin(plan.base, old(store.State()), store.State()) && store.records == old(store.records)
      ensures Sound(old(store.State())) ==> Sound(store.State())
      ensures var reply := origin(old(calls), PlanQuery(plan));
              if reply.FetchFailed? then r.None? && store.State() == old(store.State())
              else r == Some(SavedReply(old(store.State()), reply)) &&
                   store.State() == CreateTempState(old(store.State()), reply.body) &&
                   Received(ledger.log, store.State(), plan.base, old(calls), r.value)
    {
      hide LogHolds, BarFree, KeySpaceOk, EntriesDated, NamesFresh, Sound, StaysWithin, RulePolicy, PlanHeader;
      ghost var call := calls;
      var reply := Open(plan.base, RC.Request("GET", PlanHeader(plan)));
      FilesWithin(plan.base, store.State(), store.State());
      if reply.FetchFailed? {
        return None;
      }
      var path := Save(plan.base, reply.body);
      r := Some(StoredResponse(reply.status, reply.header, [], path, reply.contentLength, true));
    }

    // Carries out a foreground plan without streaming. The answer to a miss names the
    // temporary file, which completing the fill has moved or removed by then.
    method HandlePlan(plan: FillPlan) returns (r: Option<Result>)
      requires Inv(plan.base) && PlanGood(ledger, plan)
      modifies store, this`ticks, this`calls, this`ledger, table
      ensures Inv(plan.base) && Released(old(table.Value()), old(table.releases), plan.key)
      ensures var reply := origin(old(calls), PlanQuery(plan));
              store.State() == AfterPlan(old(store.State()), plan, reply, old(ticks)) &&
              (reply.FetchFailed? ==>
                 (r.Some? <==> plan.fallback.Some? &&
                               CanServeStaleOnError(clock(old(ticks)), plan.policy, plan.fallback.value)) &&
                 (r.Some? ==> r.value.state == Stale)) &&
              (Confirms(plan, reply) ==> r.Some? && r.value.state == Hit) &&
              (reply.Reply? && !Confirms(plan, reply) ==>
                 r == Some(BuildResult(Miss, SavedReply(old(store.State()), reply))))
      ensures r.Some? ==> r.value.state in {Miss, Hit, Stale}
      ensures r.Some? && r.value.state == Miss ==> r.value.bodyPath != NoPath && r.value.bodyPath !in store.files
      ensures r.Some? && r.value.state == Hit ==> plan.fallback.Some? &&
                                                  r.value.bodyPath == plan.fallback.value.response.bodyPath
      ensures r.Some? && r.value.state == Stale ==>
                plan.fallback.Some? && r.value == EntryResult(plan.fallback.value, Stale) &&
                CanServeStaleOnError(clock(old(ticks)), plan.policy, plan.fallback.value)
    {
      hide LogHolds, BarFree, KeySpaceOk, EntriesDated, NamesFresh, Sound, FilledEntry, RenewedState,
           CanServeStaleOnError, StaysWithin, RulePolicy, FilledState, PlanQuery;
      ghost var call := calls;
      var fetched := FetchPlan(plan);
      if fetched.None? {
        r := HandleFillError(plan);
        return;
      }
      r := RevalidatedResult(plan, fetched.value.status, fetched.value.header, call);
      if r.None? {
        CompleteFill(plan, fetched.value, call);
        r := Some(BuildResult(Miss, fetched.value));
      }
    }

    // The names stay if a renewal happens.
    ghost predicate RenewsSafely(plan: FillPlan, reply: RC.FetchReply, tick: nat, st: StoreState) {
      reply.Reply? && plan.revalidate && reply.status == 304 ==> PlanNamesKept(plan, reply.header, tick, st)
    }

    lemma SameRecordsSafe(plan: FillPlan, reply: RC.FetchReply, tick: nat, st: StoreState, st': StoreState)
      requires RenewsSafely(plan, reply, tick, st) && st'.records == st.records
      ensures RenewsSafely(plan, reply, tick, st')
    {
      hide DecideStore, LookupKey, MergeRevalidated;
    }

    // Refills behind a stale answer, in the router: a renewed plan's empty body is removed.
    method FillInBackground(plan: FillPlan)
      requires Inv(plan.base) && PlanGood(ledger, plan)
      modifies store, this`ticks, this`calls, this`ledger, table
      ensures Inv(plan.base) && Released(old(table.Value()), old(table.releases), plan.key) &&
              Learns(old(ledger), ledger)
      ensures ledger.log == old(ledger).log + [PlanQuery(plan)]
      ensures StaysWithin(plan.base, old(store.State()), store.State())
      ensures var reply := origin(old(calls), PlanQuery(plan));
              Sound(old(store.State())) && RenewsSafely(plan, reply, old(ticks), old(store.State())) ==>
                Sound(store.State())
      ensures store.State() == AfterRefill(old(store.State()), plan, origin(old(calls), PlanQuery(plan)), old(ticks))
    {
      hide LogHolds, BarFree, KeySpaceOk, EntriesDated, NamesFresh, Sound, FilledEntry, RenewedState,
           CanServeStaleOnError, StaysWithin, RulePolicy, NamesKept, PlanHeader, FilledState;
      ghost var st0, call := store.State(), calls;
      ghost var reply := origin(calls, PlanQuery(plan));
      var fetched := FetchPlan(plan);
      ghost var st1 := store.State();
      if RenewsSafely(plan, reply, ticks, st0) { SameRecordsSafe(plan, reply, ticks, st0, st1); }
      if fetched.None? {
        var _ := HandleFillError(plan);
        return;
      }
      var renewed := RevalidatedResult(plan, fetched.value.status, fetched.value.header, call);
      ghost var st2 := store.State();
      WithinTransitive(plan.base, st0, st1, st2);
      if renewed.Some? {
        RemoveTempSound(st2, fetched.value.bodyPath);
        Cleanup(plan.base, fetched.value);
      } else {
        CompleteFill(plan, fetched.value, call);
      }
      WithinTransitive(plan.base, st0, st2, store.State());
    }

    // Streams a reply to the client while saving it, and releases the plan whatever fails.
    method StreamReply(plan: FillPlan, reply: RC.FetchReply, faults: Faults, ghost call: nat) returns (r: Streaming)
      requires Inv(plan.base) && PlanGood(ledger, plan) && reply.Reply? && ReplyOf(ledger.log, call) == reply
      requires Answered(ledger.log, plan.base, call, reply.status, reply.header)
      requires !(plan.revalidate && reply.status == 304 && plan.fallback.Some?)
      modifies store, this`ticks, this`ledger, table
      ensures Inv(plan.base) && Released(old(table.Value()), old(table.releases), plan.key) &&
              Learns(old(ledger), ledger)
      ensures ledger.log == old(ledger).log
      ensures StaysWithin(plan.base, old(store.State()), store.State()) &&
              (Sound(old(store.State())) ==> Sound(store.State()))
      ensures !r.FromStore? && (r.SentError? <==> !faults.tooLarge && (faults.tempDir || faults.tempFile))
      ensures r.Streamed? ==>
                r.status == reply.status && (r.state == Bypassed <==> faults.tooLarge) && r.state in {Bypassed, Miss} &&
                (r.whole <==> plan.verb == "HEAD" || r.body == reply.body) &&
                r.body == if plan.verb == "HEAD" then [] else if faults.tooLarge then reply.body
                          else Copied(reply.body, faults)
      ensures store.State() == AfterStreaming(old(store.State()), plan, reply, faults, old(ticks))
    {
      hide LogHolds, BarFree, KeySpaceOk, EntriesDated, NamesFresh, Sound, FilledEntry, StaysWithin, RulePolicy,
           FilledState;
      if faults.tooLarge {
        AbortFill(plan, NO_RESPONSE);
        return Streamed(Bypassed, reply.status, if plan.verb == "HEAD" then [] else reply.body, true);
      }
      if faults.tempDir || faults.tempFile {
        AbortFill(plan, NO_RESPONSE);
        return SentError;
      }
      ghost var st0 := store.State();
      var copied := if faults.copy && faults.copied < |reply.body| then reply.body[..faults.copied] else reply.body;
      var path := Save(plan.base, copied);
      ghost var st1 := store.State();
      var stored := StoredResponse(reply.status, reply.header, [], path, reply.contentLength, true);
      if faults.copy {
        AbortFill(plan, stored);
      } else {
        CompleteFill(plan, stored, call);
      }
      WithinTransitive(plan.base, st0, st1, store.State());
      r := Streamed(Miss, reply.status, if plan.verb == "HEAD" then [] else copied,
                    plan.verb == "HEAD" || |copied| == |reply.body|);
    }

    // Carries out a foreground plan. Whatever fails on the way, the plan is released
    // once; the client gets the origin's bytes, or the plan's stored entry.
    method StreamFill(plan: FillPlan, faults: Faults) returns (r: Streaming)
      requires Inv(plan.base) && PlanGood(ledger, plan)
      modifies store, this`ticks, this`calls, this`ledger, table
      ensures Inv(plan.base) && Released(old(table.Value()), old(table.releases), plan.key) &&
              Learns(old(ledger), ledger)
      ensures ledger.log == old(ledger).log + [PlanQuery(plan)]
      ensures StaysWithin(plan.base, old(store.State()), store.State())
      ensures var reply := origin(old(calls), PlanQuery(plan));
              Streams(plan, reply, clock(old(ticks)), faults, r) &&
              store.State() == AfterStream(old(store.State()), plan, reply, faults, old(ticks)) &&
              (reply.FetchFailed? ==> store.State() == old(store.State())) &&
              (reply.Reply? && plan.revalidate && reply.status == 304 && plan.fallback.Some? ==>
                 store.State() == RenewedState(old(store.State()), plan.base, plan.header, plan.policy,
                                               plan.fallback.value, reply.header, old(ticks))) &&
              (Sound(old(store.State())) && RenewsSafely(plan, reply, old(ticks), old(store.State())) ==>
                 Sound(store.State()))
    {
      hide LogHolds, BarFree, KeySpaceOk, EntriesDated, NamesFresh, Sound, FilledEntry, RenewedState,
           CanServeStaleOnError, PlanHeader, StaysWithin, RulePolicy, NamesKept, AfterStreaming, Copied;
      ghost var call := calls;
      var reply := Open(plan.base, RC.Request("GET", PlanHeader(plan)));
      if reply.FetchFailed? {
        FilesWithin(plan.base, store.State(), store.State());
        var fallback := HandleFillError(plan);
        return if fallback.Some? then FromStore(fallback.value) else SentError;
      }
      ghost var st0 := store.State();
      var renewed := RevalidatedResult(plan, reply.status, reply.header, call);
      if renewed.Some? {
        return FromStore(renewed.value);
      }
      r := StreamReply(plan, reply, faults, call);
    }

    // What the client of a foreground plan gets: the stored entry after a 304 to a
    // conditional request, or while windows allow it after a failure; the reply as far as
    // it could be copied; or an error.
    ghost predicate Streams(plan: FillPlan, reply: RC.FetchReply, now: int, faults: Faults, r: Streaming) {
      var renews := reply.Reply? && plan.revalidate && reply.status == 304 && plan.fallback.Some?;
      var fallsBack := reply.FetchFailed? && plan.fallback.Some? &&
      CanServeStaleOnError(now, plan.policy, plan.fallback.value);
      (r.FromStore? <==> renews || fallsBack) &&
      (r.FromStore? ==>
         r.result.state == (if renews then Hit else Stale) && !r.result.cleanupPath &&
         r.result.status == plan.fallback.value.response.status && r.result.body == plan.fallback.value.response.body &&
         r.result.bodyPath == plan.fallback.value.response.bodyPath) &&
      (r.SentError? <==> if reply.FetchFailed? then !fallsBack
                         else !renews && !faults.tooLarge && (faults.tempDir || faults.tempFile)) &&
      (r.Streamed? ==>
         reply.Reply? && r.status == reply.status && r.state == (if faults.tooLarge then Bypassed else Miss) &&
         (r.whole <==> plan.verb == "HEAD" || r.body == reply.body) &&
         r.body == if plan.verb == "HEAD" then [] else if faults.tooLarge then reply.body
                   else Copied(reply.body, faults))
    }

    // Sends a result: the body file if it names one, else the body it carries.
    method WriteResult(result: Result, verb: string) returns (written: seq<Byte>, complete: bool)
      requires !result.cleanupPath
      ensures if verb == "HEAD" then written == [] && complete
              else if result.bodyPath == NoPath then written == result.body && complete
              else complete == (result.bodyPath in store.files) &&
                   written == if complete then store.files[result.bodyPath] else []
    {
      if verb == "HEAD" {
        return [], true;
      }
      if result.bodyPath != NoPath {
        if result.bodyPath !in store.files {
          return [], false;
        }
        return store.files[result.bodyPath], true;
      }
      return result.body, true;
    }

    // The bytes an entry stands for, as they were received.
    ghost function Contents(ledger: Ledger, base: string, entry: Entry): seq<Byte> {
      if (base, entry) in ledger.dated then BodyOf(ledger.log, ledger.dated[(base, entry)].source) else []
    }

    // What a result of a dated entry sends is what was received for the URL.
    lemma WrittenIsReceived(base: string, entry: Entry, result: Result, written: seq<Byte>)
      requires NamesFresh(store.State()) && LogHolds(ledger, ticks, store.history) && (base, entry) in ledger.dated
      requires result.body == entry.response.body && result.bodyPath == entry.response.bodyPath
      requires if result.bodyPath == NoPath then written == result.body
               else result.bodyPath in store.files && written == store.files[result.bodyPath]
      ensures written == Contents(ledger, base, entry)
    {
      hide LogHolds;
      DatedFacts(ledger, ticks, store.history, base, entry);
    }

    lemma ContentsKept(ledger: Ledger, ledger': Ledger, ticks: nat, history: Files, base: string, entry: Entry)
      requires LogHolds(ledger, ticks, history) && Learns(ledger, ledger') && (base, entry) in ledger.dated
      ensures Contents(ledger', base, entry) == Contents(ledger, base, entry) && (base, entry) in ledger'.dated
    {
      hide LogHolds;
      DatedFacts(ledger, ticks, history, base, entry);
      var n := ledger.dated[(base, entry)].source;
      assert ledger'.log[n] == ledger.log[n];
    }

    // The answer to the request the plan makes.
    ghost function ReplyTo(t: Turn): RC.FetchReply {
      origin(t.call, PlanQuery(PlanOf(t)))
    }

    // The foreground plan is conditional, and its own request is answered with 304.
    ghost predicate IsRenewed(t: Turn) {
      Leads(t) && !IsStale(t) && ReplyTo(t).Reply? && PlanOf(t).revalidate && ReplyTo(t).status == 304
    }

    // The foreground plan's request fails, while the entry may still be served.
    ghost predicate FallsBack(t: Turn) {
      Leads(t) && !IsStale(t) && ReplyTo(t).FetchFailed? && Looked(t).Some? &&
      CanServeStaleOnError(clock(t.tick + 1), t.policy, Looked(t).value)
    }

    // The body files when the entry found is sent: those at the lookup, or those that its
    // renewal leaves.
    ghost function FilesThen(t: Turn): Files {
      if IsRenewed(t) then
        RenewedState(AfterLookup(t.st), t.base, PlanOf(t).header, t.policy, Looked(t).value, ReplyTo(t).header,
                     t.tick + 1).files
      else AfterLookup(t.st).files
    }

    // The entry found has its body then.
    ghost predicate HasBody(t: Turn) {
      Looked(t).Some? &&
      var path := Looked(t).value.response.bodyPath;
      path == NoPath || path in FilesThen(t)
    }

    // On a sound store it has, if a renewal keeps its names.
    lemma SoundHasBody(t: Turn)
      requires KeySpaceOk(digest, t.base, AfterLookup(t.st)) && Looked(t).Some?
      ensures Sound(t.st) && (IsRenewed(t) ==> IsSafe(t)) ==> HasBody(t)
    {
      hide Sound, KeySpaceOk, Lapse, Found, MergeRevalidated, DecideStore, StoreResponseState, StorageKey,
           BuildEntry, RevalidationHeaders, CanRevalidate;
      var st := AfterLookup(t.st);
      if Sound(t.st) && (IsRenewed(t) ==> IsSafe(t)) {
        LapseSound(store.world, t.st);
        LapseSound(store.world, Lapse(store.world, t.st));
        RenewalBodies.BodyOnDisk(digest, t.base, st, t.header);
        if IsRenewed(t) { RenewalHasBody(st, PlanOf(t), ReplyTo(t).header, t.tick + 1); }
      }
    }

    lemma RenewalHasBody(st: StoreState, plan: FillPlan, reply: Header, tick: nat)
      requires KeySpaceOk(digest, plan.base, st) && Sound(st) && plan.fallback.Some? &&
               PlanNamesKept(plan, reply, tick, st)
      requires plan.fallback.value.response.bodyPath == NoPath ||
               plan.fallback.value.response.bodyPath in st.files
      ensures var path := plan.fallback.value.response.bodyPath;
              path == NoPath || path in RenewedState(st, plan.base, plan.header, plan.policy, plan.fallback.value,
                                                     reply, tick).files
    {
      hide Sound, KeySpaceOk, Found, MergeRevalidated, DecideStore, StoreResponseState, StorageKey, WindowsAt,
           SanitizeStored, HasValidators, ParseAge;
      var renewed := RenewedEntry(plan.base, plan.header, plan.policy, plan.fallback.value, reply, tick);
      if renewed.Some? {
        RenewalBodies.RenewalKeepsSound(store.world, digest, plan.base, st, renewed.value.0, renewed.value.1,
                                        plan.header);
      }
    }

    // If nothing expires, a renewed entry has its body exactly if the renewal keeps its
    // names, or is not stored.
    lemma RenewedBodyIff(t: Turn)
      requires KeySpaceOk(digest, t.base, AfterLookup(t.st)) && Sound(t.st) && IsRenewed(t)
      requires Found(digest, t.base, AfterLookup(t.st), PlanOf(t).header) == Looked(t)
      requires Looked(t).value.response.bodyPath != NoPath
      requires !RenewedState(AfterLookup(t.st), t.base, PlanOf(t).header, t.policy, Looked(t).value,
                             ReplyTo(t).header, t.tick + 1).expired
      ensures HasBody(t) <==> IsSafe(t)
    {
      hide Sound, KeySpaceOk, Lapse, Found, MergeRevalidated, DecideStore, StoreResponseState, StorageKey, WindowsAt,
           SanitizeStored, HasValidators, ParseAge, RevalidationHeaders;
      SoundHasBody(t);
      var plan, st := PlanOf(t), AfterLookup(t.st);
      LapseSound(store.world, t.st);
      LapseSound(store.world, Lapse(store.world, t.st));
      var renewed := RenewedEntry(plan.base, plan.header, plan.policy, Looked(t).value, ReplyTo(t).header, t.tick + 1);
      if renewed.Some? {
        RenewalBodies.RenewalKeepsBodyIff(store.world, digest, plan.base, st, renewed.value.0, renewed.value.1,
                                          plan.header);
      }
    }

    // A renewal on the way, in the foreground or behind a stale answer, keeps its names.
    ghost predicate IsSafe(t: Turn) {
      Leads(t) ==> RenewsSafely(PlanOf(t), ReplyTo(t), t.tick + 1, AfterLookup(t.st))
    }

    // The entry found is within its time to live, counted from its last store or renewal
    // under the same settings.
    ghost predicate FreshCounted(ledger: Ledger, t: Turn) {
      Looked(t).Some? && Accounted(ledger, t.base, Looked(t).value, t.policy) &&
      var d := ledger.dated[(t.base, Looked(t).value)];
      clock(t.tick) < clock(d.tick + 1) + DecisionOf(ledger.log, d, Looked(t).value.response.status).ttl
    }

    // It is not yet invalid, unless a duration is beyond about 97 years.
    ghost predicate StaleCounted(ledger: Ledger, t: Turn, now: int) {
      Looked(t).Some? && Accounted(ledger, t.base, Looked(t).value, t.policy) &&
      var d := ledger.dated[(t.base, Looked(t).value)];
      (WithinLimits(DecisionOf(ledger.log, d, Looked(t).value.response.status)) ==>
         now < Looked(t).value.windows.invalidAt)
    }

    lemma AnswersCounted(ledger: Ledger, ticks: nat, history: Files, t: Turn)
      requires LogHolds(ledger, ticks, history) && BarFree(parseDuration) && RulePolicy(parseDuration, t.policy)
      requires Looked(t).Some? ==> (t.base, Looked(t).value) in ledger.dated
      ensures IsFresh(t) ==> FreshCounted(ledger, t)
      ensures IsStale(t) ==> StaleCounted(ledger, t, clock(t.tick))
      ensures FallsBack(t) ==> StaleCounted(ledger, t, clock(t.tick + 1))
    {
      hide LogHolds, BarFree, RulePolicy, Looked, DecisionOf, SameSettings, Leads;
      if Looked(t).Some? && Looked(t).value.policyTag == t.policy.policyTag {
        EntryWindows(ledger, ticks, history, t.base, Looked(t).value, t.policy);
      }
    }

    // What serving a request comes to, judged by what the lookup finds: exactly when it
    // waits, hits, or is answered stale; what is sent then, nothing if the body is gone and
    // all of it if not, as on a sound store; and what lets it be sent.
    ghost predicate ServedWell(t: Turn, faults: Faults, ledger: Ledger, r: Response) {
      var found, reply := Looked(t), ReplyTo(t);
      !r.PassedThrough? && (r.MustWait? <==> Waits(t)) && (r.MustWait? ==> r.fill == t.fills[LookedKey(t)]) &&
      (r.Sent? && r.state == Hit <==> IsFresh(t) || IsRenewed(t)) &&
      (r.Sent? && r.state == Stale <==> IsStale(t) || FallsBack(t)) &&
      (IsFresh(t) ==> FreshCounted(ledger, t)) && (IsStale(t) ==> StaleCounted(ledger, t, clock(t.tick))) &&
      (FallsBack(t) ==> StaleCounted(ledger, t, clock(t.tick + 1))) &&
      (r.Sent? && r.state in {Hit, Stale} ==>
         found.Some? && (t.base, found.value) in ledger.dated && r.status == found.value.response.status &&
         (r.complete <==> t.verb == "HEAD" || HasBody(t)) &&
         (Sound(t.st) && (IsRenewed(t) ==> IsSafe(t)) ==> r.complete) &&
         r.body == if t.verb == "HEAD" || !r.complete then [] else Contents(ledger, t.base, found.value)) &&
      (r.Sent? && r.state in {Miss, Bypassed} ==>
         Leads(t) && !IsStale(t) && reply.Reply? && r.status == reply.status &&
         (r.state == Bypassed <==> faults.tooLarge) && (r.complete <==> t.verb == "HEAD" || r.body == reply.body) &&
         r.body <= reply.body &&
         r.body == if t.verb == "HEAD" then [] else if faults.tooLarge then reply.body
                   else Copied(reply.body, faults)) &&
      (r.NoAnswer? <==>
         Leads(t) && !IsStale(t) &&
         if reply.FetchFailed? then !FallsBack(t)
         else !IsRenewed(t) && !faults.tooLarge && (faults.tempDir || faults.tempFile))
    }

    // The store after serving a request: as the lookup left it, or as the plan did that it
    // led to, in the foreground or behind a stale answer.
    ghost function ServedState(t: Turn, faults: Faults): StoreState {
      if !Leads(t) then AfterLookup(t.st)
      else if IsStale(t) then AfterRefill(AfterLookup(t.st), PlanOf(t), ReplyTo(t), t.tick + 1)
      else AfterStream(AfterLookup(t.st), PlanOf(t), ReplyTo(t), faults, t.tick + 1)
    }

    // What is decided on the reply to a foreground plan.
    ghost function DecidedOn(t: Turn): Decision {
      if ReplyTo(t).FetchFailed? then NO_STORE
      else DecideStore(parseTime, clock(t.tick + 1), t.policy, ReplyTo(t).status, ReplyTo(t).header)
    }

    // A reply that may be stored is what the same request finds next, unless something
    // expires meanwhile: it is a hit for as long as the time to live that was decided on.
    lemma MissThenHit(t: Turn, faults: Faults, next: Turn)
      requires KeySpaceOk(digest, t.base, AfterLookup(t.st)) && Leads(t) && !IsStale(t) && !PlanOf(t).revalidate
      requires DecidedOn(t).store && t.verb in {"GET", "HEAD"}
      requires !faults.tooLarge && !faults.tempDir && !faults.tempFile && !faults.copy
      requires next.base == t.base && next.header == t.header && next.policy == t.policy &&
               next.st == ServedState(t, faults) && !AfterLookup(next.st).expired
      ensures Looked(next).Some? && Looked(next).value.response.status == ReplyTo(t).status
      ensures IsFresh(next) <==> clock(next.tick) < clock(t.tick + 2) + DecidedOn(t).ttl
    {
      hide Lapse, KeySpaceOk, DecideStore, StoreResponseState, StorageKey, LookupKey, EffectiveVary, SanitizeStored,
           HasValidators, ParseAge, Found, PlanQuery, VaryKey, FreshFor;
      var st, plan, reply := AfterLookup(t.st), PlanOf(t), ReplyTo(t);
      var saved := CreateTempState(st, reply.body);
      var stored := ImportState(saved, Temp(st.names));
      LossKeeps(digest, t.base, st, stored);
      var (entry, names) := FilledEntry(plan, SavedReply(st, reply), t.tick + 1).value;
      var st' := StoreResponseState(store.world, stored, t.base, entry, names);
      assert next.st == st';
      NothingLapsed(next.st);
      StoredFoundIff(store.world, digest, t.base, stored, entry, names, t.header, t.header);
      FillMeetsLookup(digest, t.base, t.header, Some(reply.header), DecidedOn(t).vary, RC.OptionalNames(names));
      SameRecordsFind(digest, t.base, st', AfterLookup(st'), t.header);
      FoundIsIff(clock(next.tick), t.policy, entry);
    }

    lemma NothingLapsed(st: StoreState)
      requires !AfterLookup(st).expired
      ensures AfterLookup(st).records == st.records && !st.expired
    {
    }

    lemma SameRecordsFind(digest: string -> string, base: string, st: StoreState, st': StoreState, h: Header)
      requires st'.records == st.records
      ensures Found(digest, base, st', h) == Found(digest, base, st, h)
    {
      hide LookupKey, VaryKey;
    }

    lemma LooksFacts(t: Turn)
      ensures IsFresh(t) || IsStale(t) ==> Looked(t).Some?
      ensures IsStale(t) ==> !IsFresh(t)
    {
      hide Looked;
    }

    lemma Waited(t: Turn, faults: Faults, ledger: Ledger)
      requires Waits(t)
      ensures ServedWell(t, faults, ledger, MustWait(t.fills[LookedKey(t)]))
    {
      hide Looked, ReplyTo, LookedKey;
    }

    lemma ServedGrows(t: Turn, faults: Faults, ledger: Ledger, ledger': Ledger, ticks: nat, history: Files, r: Response)
      requires ServedWell(t, faults, ledger, r) && LogHolds(ledger, ticks, history) && Learns(ledger, ledger')
      ensures ServedWell(t, faults, ledger', r)
    {
      hide LogHolds, Looked, ReplyTo, LookedKey, IsFresh, IsStale, FallsBack, IsRenewed, Leads, Learns, Contents,
           DecisionOf;
      if Looked(t).Some? && (t.base, Looked(t).value) in ledger.dated {
        ContentsKept(ledger, ledger', ticks, history, t.base, Looked(t).value);
        DecisionKept(ledger, ledger', ticks, history, t.base, Looked(t).value);
      }
    }

    lemma DecisionKept(ledger: Ledger, ledger': Ledger, ticks: nat, history: Files, base: string, entry: Entry)
      requires LogHolds(ledger, ticks, history) && Learns(ledger, ledger') && (base, entry) in ledger.dated
      ensures (base, entry) in ledger'.dated && ledger'.dated[(base, entry)] == ledger.dated[(base, entry)]
      ensures var d := ledger.dated[(base, entry)];
              DecisionOf(ledger'.log, d, entry.response.status) == DecisionOf(ledger.log, d, entry.response.status)
    {
      hide DecideStore, MergeRevalidated;
      var d := ledger.dated[(base, entry)];
      assert Dated(ledger, ticks, history, base, entry, d);
      assert ledger'.log[d.call] == ledger.log[d.call];
    }

    lemma WaitsLeaves(t: Turn, faults: Faults)
      requires Waits(t)
      ensures ServedState(t, faults) == AfterLookup(t.st)
    {
      hide Looked, LookedKey;
    }

    // Answers from the entry that was found.
    method ServeEntry(ghost t: Turn, result: Result, verb: string, faults: Faults) returns (r: Response)
      requires Inv(t.base) && RulePolicy(parseDuration, t.policy) && verb == t.verb
      requires Looked(t).Some? && (t.base, Looked(t).value) in ledger.dated && store.State() == AfterLookup(t.st)
      requires if IsFresh(t) then result == EntryResult(Looked(t).value, Hit)
               else IsStale(t) && result == EntryResult(Looked(t).value, Stale)
      ensures ServedWell(t, faults, ledger, r)
    {
      hide LogHolds, BarFree, KeySpaceOk, EntriesDated, NamesFresh, RulePolicy, Looked, LookedKey, ReplyTo,
           FreshCounted, StaleCounted, Contents, Sound, IsSafe, AfterLookup;
      AnswersCounted(ledger, ticks, store.history, t);
      SoundHasBody(t);
      var written, complete := WriteResult(result, verb);
      if complete && verb != "HEAD" { WrittenIsReceived(t.base, Looked(t).value, result, written); }
      r := Sent(result.state, result.status, written, complete);
    }

    // Answers with what came of a foreground plan.
    method ServeOutcome(ghost t: Turn, plan: FillPlan, sent: Streaming, faults: Faults) returns (r: Response)
      requires Inv(t.base) && RulePolicy(parseDuration, t.policy) && Leads(t) && !IsStale(t) && plan == PlanOf(t)
      requires Looked(t).Some? ==> (t.base, Looked(t).value) in ledger.dated
      requires KeySpaceOk(digest, t.base, AfterLookup(t.st))
      requires Streams(plan, ReplyTo(t), clock(t.tick + 1), faults, sent)
      requires sent.FromStore? ==> store.files == FilesThen(t)
      ensures ServedWell(t, faults, ledger, r)
    {
      hide PlanQuery, LogHolds, BarFree, KeySpaceOk, EntriesDated, NamesFresh, RulePolicy, Looked, LookedKey,
           FreshCounted, StaleCounted, Contents, Sound, AfterLookup, CanServeStaleOnError, CanRevalidate,
           RevalidationHeaders, IsFresh, IsStale, FilesThen, IsSafe;
      AnswersCounted(ledger, ticks, store.history, t);
      if Looked(t).Some? { SoundHasBody(t); }
      match sent
      case SentError => r := NoAnswer;
      case Streamed(state, status, body, whole) => r := Sent(state, status, body, whole);
      case FromStore(result) =>
        var written, complete := WriteResult(result, plan.verb);
        if complete && plan.verb != "HEAD" { WrittenIsReceived(t.base, plan.fallback.value, result, written); }
        r := Sent(result.state, result.status, written, complete);
    }

    // Carries out a foreground plan and answers with what comes of it.
    method ServePlan(ghost t: Turn, plan: FillPlan, faults: Faults) returns (r: Response)
      requires Inv(t.base) && RulePolicy(parseDuration, t.policy) && Leads(t) && !IsStale(t) && plan == PlanOf(t)
      requires PlanGood(ledger, plan) && store.State() == AfterLookup(t.st) && ticks == t.tick + 1 && calls == t.call
      requires Looked(t).Some? ==> (t.base, Looked(t).value) in ledger.dated
      modifies store, this`ticks, this`calls, this`ledger, table
      ensures Inv(t.base) && Learns(old(ledger), ledger) && StaysWithin(t.base, old(store.State()), store.State())
      ensures Released(old(table.Value()), old(table.releases), LookedKey(t)) && ServedWell(t, faults, ledger, r)
      ensures ledger.log == old(ledger).log + [PlanQuery(PlanOf(t))]
      ensures Sound(old(store.State())) && IsSafe(t) ==> Sound(store.State())
      ensures store.State() == ServedState(t, faults)
    {
      hide PlanQuery, LogHolds, BarFree, KeySpaceOk, EntriesDated, NamesFresh, RulePolicy, Looked, LookedKey, Sound,
           StaysWithin, AfterLookup, PlanHeader, RenewsSafely, CanServeStaleOnError, CanRevalidate,
           RevalidationHeaders, IsFresh, IsStale, Learns, RenewedState, IsSafe, ServedWell, AfterStream, AfterRefill;
      LearnsFacts(ledger, ledger);
      SafeRenews(t);
      ghost var ledger0 := ledger;
      var sent := StreamFill(plan, faults);
      LearnsFacts(ledger0, ledger);
      r := ServeOutcome(t, plan, sent, faults);
    }

    lemma SafeRenews(t: Turn)
      requires Leads(t)
      ensures IsSafe(t) <==> RenewsSafely(PlanOf(t), ReplyTo(t), t.tick + 1, AfterLookup(t.st))
    {
    }

    lemma LearnsFacts(a: Ledger, b: Ledger)
      ensures Learns(a, b) ==> forall k :: k in a.dated ==> k in b.dated
      ensures Learns(a, a)
    {
    }

    // Answers from the entry that was found, and refills behind a stale answer that leads.
    method ServeFound(ghost t: Turn, start: StartResult, verb: string, faults: Faults) returns (r: Response)
      requires Inv(t.base) && RulePolicy(parseDuration, t.policy) && verb == t.verb && (IsFresh(t) || IsStale(t))
      requires PlanGood(ledger, PlanOf(t)) && store.State() == AfterLookup(t.st) && ticks == t.tick + 1 &&
               calls == t.call
      requires Looked(t).Some? && (t.base, Looked(t).value) in ledger.dated
      requires IsFresh(t) ==> start == Answer(EntryResult(Looked(t).value, Hit))
      requires IsStale(t) ==> start == if Leads(t) then AnswerAndLead(EntryResult(Looked(t).value, Stale), PlanOf(t))
                                       else Answer(EntryResult(Looked(t).value, Stale))
      modifies store, this`ticks, this`calls, this`ledger, table
      ensures Inv(t.base) && Learns(old(ledger), ledger) && StaysWithin(t.base, old(store.State()), store.State())
      ensures ServedWell(t, faults, ledger, r) && (Sound(old(store.State())) && IsSafe(t) ==> Sound(store.State()))
      ensures ledger.log == old(ledger).log + (if Leads(t) then [PlanQuery(PlanOf(t))] else [])
      ensures if Leads(t) then Released(old(table.Value()), old(table.releases), LookedKey(t))
              else table.Value() == old(table.Value()) && table.releases == old(table.releases)
      ensures store.State() == ServedState(t, faults)
    {
      hide PlanQuery, LogHolds, BarFree, KeySpaceOk, EntriesDated, NamesFresh, RulePolicy, ServedWell, Sound,
           StaysWithin, Looked, LookedKey, RenewsSafely, IsFresh, IsStale, AfterLookup, PlanHeader, CanRevalidate,
           RevalidationHeaders, EntryResult, AfterStream, AfterRefill;
      LooksFacts(t);
      r := ServeEntry(t, start.result, verb, faults);
      FilesWithin(t.base, store.State(), store.State());
      if start.AnswerAndLead? {
        ghost var ledger0, ticks0, history0 := ledger, ticks, store.history;
        FillInBackground(start.plan);
        ServedGrows(t, faults, ledger0, ledger, ticks0, history0, r);
      }
    }

    // The fills are as before, and no channel was closed twice, if none closed was open.
    ghost predicate FillsKept(before: Table)
      reads table
    {
      (forall f :: f in before.closed ==> f < before.next) ==>
        table.fills == before.fills && table.panicked == before.panicked && forall f :: f in table.closed ==>
          f < table.next
    }

    // Serves a prepared request.
    method ServePrepared(base: string, h: Header, verb: string, policy: Policy, faults: Faults) returns (r: Response)
      requires Inv(base) && RulePolicy(parseDuration, policy)
      modifies store, this`ticks, this`calls, this`ledger, table
      ensures Inv(base) && Learns(old(ledger), ledger) && StaysWithin(base, old(store.State()), store.State())
      ensures var t := Turn(base, h, verb, policy, old(store.State()), old(ticks), old(calls), old(table.fills));
              ServedWell(t, faults, ledger, r) && (Sound(t.st) && IsSafe(t) ==> Sound(store.State())) &&
              ledger.log == old(ledger).log + (if Leads(t) then [PlanQuery(PlanOf(t))] else []) &&
              table.releases == old(table.releases) + (if Leads(t) then [LookedKey(t)] else []) &&
              store.State() == ServedState(t, faults)
      ensures FillsKept(old(table.Value()))
    {
      hide PlanQuery, LogHolds, BarFree, KeySpaceOk, EntriesDated, NamesFresh, RulePolicy, ServedWell, Sound,
           StaysWithin, Looked, LookedKey, ReplyTo, RenewsSafely, IsFresh, IsStale, AfterLookup, EntryResult,
           ServedState;
      ghost var before := table.Value();
      ghost var t := Turn(base, h, verb, policy, store.State(), ticks, calls, table.fills);
      var start := Start(base, h, verb, policy);
      LooksFacts(t);
      ghost var st1 := store.State();
      if start.WaitFor? {
        Waited(t, faults, ledger);
        WaitsLeaves(t, faults);
        return MustWait(start.fill);
      }
      if start.Lead? {
        r := ServePlan(t, start.plan, faults);
      } else {
        r := ServeFound(t, start, verb, faults);
      }
      WithinTransitive(base, t.st, st1, store.State());
      if Leads(t) && forall f :: f in before.closed ==> f < before.next { ClaimThenRelease(before, LookedKey(t)); }
    }

    // Serves a request that is not for a range: from the store, by a streamed fill, or
    // stale with a fill behind it. A waiting request comes back for another pass.
    method Serve(siteId: string, path: string, rawQuery: string, request: RC.Request, policy: Policy, faults: Faults)
      returns (r: Response)
      requires Inv(BaseKey(siteId, path, rawQuery)) && RulePolicy(parseDuration, policy)
      modifies store, this`ticks, this`calls, this`ledger, table
      ensures Inv(BaseKey(siteId, path, rawQuery)) && Learns(old(ledger), ledger)
      ensures StaysWithin(BaseKey(siteId, path, rawQuery), old(store.State()), store.State())
      ensures match PrepareRequest(request, policy)
              case None => r.PassedThrough? && ledger == old(ledger) && store.State() == old(store.State()) &&
              table.Value() == old(table.Value())
              case Some(h) =>
                var base := BaseKey(siteId, path, rawQuery);
                var t := Turn(base, h, request.verb, policy, old(store.State()), old(ticks), old(calls),
                              old(table.fills));
                ServedWell(t, faults, ledger, r) && store.State() == ServedState(t, faults) &&
                (Sound(t.st) && IsSafe(t) ==> Sound(store.State())) &&
                ledger.log == old(ledger).log + (if Leads(t) then [PlanQuery(PlanOf(t))] else []) &&
                table.releases == old(table.releases) + (if Leads(t) then [LookedKey(t)] else [])
      ensures FillsKept(old(table.Value()))
      ensures '|' !in siteId ==> RC.SentForOneUrl(ledger.log, siteId, path, rawQuery)
    {
      hide PlanQuery, LogHolds, BarFree, KeySpaceOk, EntriesDated, NamesFresh, RulePolicy, PrepareRequest, ServedWell,
           Sound, StaysWithin, LookedKey, IsSafe, Leads, BaseKey, RC.SentForOneUrl, ServedState;
      var base := BaseKey(siteId, path, rawQuery);
      var prepared := PrepareRequest(request, policy);
      FilesWithin(base, store.State(), store.State());
      if prepared.None? {
        r := PassedThrough;
      } else {
        r := ServePrepared(base, prepared.value, request.verb, policy, faults);
      }
      if '|' !in siteId { RC.KeyTellsUrl(ledger.log, siteId, path, rawQuery); }
    }
  }
}
