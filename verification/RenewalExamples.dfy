/** A renewal that loses its body, shown on one store and one origin: a request with
    Origin is answered by a stored entry that the origin confirms without changing any
    field, and gets nothing. */
module RenewalExamples {
  import opened Text
  import opened Headers
  import opened CacheKeys
  import opened Freshness
  import opened Policies
  import opened BlobStore
  import opened FillProtocol
  import opened KeySpace
  import RC = RangeCaching
  import E = EngineModel
  import X = RangeExamples

  const FIELDS: Header := map["Etag" := ["v"], "Expires" := ["x"]]

  const ASKED: Header := map["Origin" := ["o"]]

  // The first reply carries the body, and all others confirm it without a word.
  function Origin(n: nat, query: RC.Query): RC.FetchReply {
    if n == 0 then RC.Reply(200, FIELDS, [1], 1) else RC.Reply(304, map[], [], 0)
  }

  function Key(): string {
    VariantKey(X.Same, X.Base(), ["Origin"], ASKED)
  }

  // What the first reply was decided to be stored as, under the names it was given.
  function Filled(): Entry {
    E.BuildEntry(0, Key(), X.FollowPolicy(), DecideStore(X.Epoch, 0, X.FollowPolicy(), 200, FIELDS),
                 StoredResponse(200, FIELDS, [], Blob(0), 1, false))
  }

  ghost function Store(): StoreState {
    StoreState(map[VaryKey(X.Base()) := VaryRecord(["Origin"]), Key() := EntryRecord(Filled())],
               map[Blob(0) := [1]], map[Blob(0) := [1]], 1, 0, false)
  }

  ghost function Ledger(): E.Ledger {
    E.Ledger([RC.Query(X.Base(), RC.Request("GET", ASKED))],
             map[(X.Base(), Filled()) := E.Dating(X.FollowPolicy(), 0, 0, 0, None)])
  }

  ghost predicate IsExample(engine: E.Engine) {
    engine.digest == X.Same && engine.parseTime == X.Epoch && engine.parseDuration == X.Unparsed &&
    engine.clock == X.Moments && engine.origin == Origin && engine.store.world == World(X.NothingLapses, X.Moments)
  }

  // It is stored, to be confirmed at once, and again so after that.
  lemma StoredToConfirm()
    ensures DecideStore(X.Epoch, 0, X.FollowPolicy(), 200, FIELDS) == Decision(true, 0, 0, 0, [])
    ensures SanitizeStored(FIELDS) == FIELDS && MergeRevalidated(FIELDS, map[]) == FIELDS
  {
    X.NoDirectives();
    assert CombinedValue(FIELDS, "Cache-Control") == "";
    assert ParseVary([]) == Some([]);
    assert ConnectionTokens([]) == [];
    assert (set t | t in [] :: CanonicalKey(TrimSpace(t))) == {};
  }

  lemma KeysDiffer()
    ensures HasPrefix(Key(), VariantPrefix(X.Base())) && HasPrefix(Key(), "resp|")
    ensures Key() != VaryKey(X.Base()) && Key() != ResponseKey(X.Base()) && ResponseKey(X.Base()) != VaryKey(X.Base())
    ensures HasPrefix(VaryKey(X.Base()), "vary|")
  {
    hide Fingerprint, BaseKey;
    Kinds(X.Base());
    assert HasPrefix(Key(), VariantPrefix(X.Base()));
    PrefixTransitive("resp|", VariantPrefix(X.Base()), Key());
    OneKind(Key());
  }

  lemma FilledFacts()
    ensures var entry := Filled();
            entry.key == Key() && entry.response == StoredResponse(200, FIELDS, [], Blob(0), 1, false) &&
            entry.windows == Windows(0, 0, 0, DEFAULT_MANAGED_TTL) && entry.policyTag == X.FollowPolicy().policyTag
  {
    hide Key, DecideStore, SanitizeStored, X.FollowPolicy;
    StoredToConfirm();
  }

  lemma StoreIsSound()
    ensures Sound(Store())
    ensures VaryAt(Store(), VaryKey(X.Base())) == Some(["Origin"]) && EntryAt(Store(), Key()) == Some(Filled())
  {
    hide Key, BaseKey, VaryKey, Filled;
    FilledFacts();
    KeysDiffer();
    OneKind(Key());
    OneKind(VaryKey(X.Base()));
    assert BodyAt(Store(), Key()) == Blob(0) && BodyAt(Store(), VaryKey(X.Base())) == NoPath;
    assert NoDangling(Store());
  }

  lemma StoreIsKeySpace()
    ensures KeySpaceOk(X.Same, X.Base(), Store())
  {
    hide Key, BaseKey, VaryKey, Filled, IsVariant, VariantPrefix, ResponseKey;
    FilledFacts();
    KeysDiffer();
    Kinds(X.Base());
    assert IsVariant(X.Same, X.Base(), ["Origin"], Key()) by { KeyOfVariant(); }
  }

  lemma KeyOfVariant()
    ensures IsVariant(X.Same, X.Base(), ["Origin"], Key())
  {
    hide Fingerprint, BaseKey;
    assert Key() == VariantKey(X.Same, X.Base(), ["Origin"], ASKED);
  }

  lemma LedgerHolds(engine: E.Engine)
    requires IsExample(engine)
    ensures engine.LogHolds(Ledger(), 2, Store().history)
    ensures RulePolicy(X.Unparsed, X.FollowPolicy()) && BarFree(X.Unparsed)
  {
    hide DecideStore, RulePolicy, SanitizeStored, X.FollowPolicy, Key, BaseKey, MergeRevalidated, Filled, HasValidators,
         E.Engine.Sourced, WindowsAt;
    StoredToConfirm();
    FilledFacts();
    WindowsOfFilled();
    X.StoredOnce();
    BodyIsSourced(engine);
    assert engine.Dated(Ledger(), 2, Store().history, X.Base(), Filled(), E.Dating(X.FollowPolicy(), 0, 0, 0, None));
  }

  lemma WindowsOfFilled()
    ensures WindowsAt(0, Decision(true, 0, 0, 0, []), HasValidators(FIELDS)) == Windows(0, 0, 0, DEFAULT_MANAGED_TTL)
  {
  }

  lemma BodyIsSourced(engine: E.Engine)
    requires IsExample(engine)
    ensures engine.Sourced(Ledger(), Store().history, X.Base(), Filled(), E.Dating(X.FollowPolicy(), 0, 0, 0, None))
  {
    hide X.FollowPolicy, Key, BaseKey, Filled;
    FilledFacts();
  }

  lemma ExampleInv(engine: E.Engine)
    requires IsExample(engine) && engine.store.State() == Store() && engine.ticks == 2 && engine.calls == 1
    requires engine.ledger == Ledger()
    ensures engine.Inv(X.Base())
  {
    hide E.Engine.LogHolds, BarFree, KeySpaceOk, Sound, Key, Filled, VaryKey, X.FollowPolicy;
    LedgerHolds(engine);
    StoreIsSound();
    StoreIsKeySpace();
    SoundIsFresh(Store());
  }

  lemma SoundIsFresh(st: StoreState)
    requires Sound(st)
    ensures NamesFresh(st)
  {
  }

  // The request about to be served.
  ghost function Asking(): E.Turn {
    E.Turn(X.Base(), ASKED, "GET", X.FollowPolicy(), Store(), 2, 1, map[])
  }

  lemma SameRecords(engine: E.Engine)
    requires IsExample(engine)
    ensures engine.AfterLookup(Store()).records == Store().records && !engine.AfterLookup(Store()).expired &&
            engine.AfterLookup(Store()).files == Store().files
  {
    hide Key, Filled, VaryKey;
    X.NothingLost(Store());
    X.NothingLost(Lapse(engine.store.world, Store()));
  }

  // The lookup finds the entry, with and without the fields that ask for a confirmation.
  lemma EntryIsFound(engine: E.Engine, h: Header)
    requires IsExample(engine) && Values(h, "Origin") == ["o"]
    ensures Found(X.Same, X.Base(), engine.AfterLookup(Store()), h) == Some(Filled())
  {
    hide Filled, BaseKey, X.FollowPolicy, E.Engine.AfterLookup, CanonicalKey;
    SameRecords(engine);
    KeysDiffer();
    OriginIsCanonical();
    TrimNoSpaces("Origin");
    assert ["Origin"][1..] == [];
    assert FingerprintParts(["Origin"], h) == FingerprintParts(["Origin"], ASKED);
  }

  // The entry is no longer fresh, and the origin confirms it.
  lemma IsConfirmed(engine: E.Engine)
    requires IsExample(engine)
    ensures engine.IsRenewed(Asking()) && engine.Looked(Asking()) == Some(Filled())
    ensures var plan, reply := engine.PlanOf(Asking()), engine.ReplyTo(Asking());
            plan.revalidate && plan.fallback == Some(Filled()) && Values(plan.header, "Origin") == ["o"] &&
            plan.base == X.Base() && plan.policy == X.FollowPolicy() && reply == RC.Reply(304, map[], [], 0)
  {
    hide BaseKey, Key, Filled, X.FollowPolicy, E.Engine.AfterLookup, E.PlanQuery, Found, E.Engine.LookedKey, Store;
    EntryIsFound(engine, ASKED);
    FilledFacts();
    FollowsOrigin();
    StoredToConfirm();
  }

  lemma FollowsOrigin()
    ensures var policy := X.FollowPolicy();
            policy.mode == FollowOrigin && !policy.optimistic && policy.siteId == "s" && TtlPositive(policy)
  {
  }

  // The confirmed fields list no names, while the entry is stored under Origin.
  lemma RenewedPlainly(engine: E.Engine, st: StoreState, h: Header)
    requires IsExample(engine) && st.records == Store().records && Values(h, "Origin") == ["o"]
    ensures var renewed := engine.RenewedEntry(X.Base(), h, X.FollowPolicy(), Filled(), map[], 3);
            renewed.Some? && renewed.value.1 == [] && renewed.value.0.windows.invalidAt == DEFAULT_MANAGED_TTL
    ensures !engine.NamesKept(X.Base(), h, X.FollowPolicy(), Filled(), map[], 3, st)
  {
    hide BaseKey, Key, Filled, X.FollowPolicy, Found, DecideStore, MergeRevalidated, StorageKey;
    FilledFacts();
    StoredToConfirm();
    StoreIsSound();
  }

  // Nothing expires on the way.
  lemma StaysUnexpired(st: StoreState, key: string, prefix: string, entry: Entry)
    requires !st.expired && entry.windows.invalidAt > 0
    ensures var w := World(X.NothingLapses, X.Moments);
            !DeletePrefixState(w, st, prefix).expired && !DeleteState(w, st, key).expired &&
            !PutEntryState(w, st, key, entry).expired
  {
    X.NothingLost(st);
  }

  lemma RenewalExpiresNothing(engine: E.Engine, st: StoreState, h: Header)
    requires IsExample(engine) && !st.expired && st.records == Store().records && Values(h, "Origin") == ["o"]
    ensures !engine.RenewedState(st, X.Base(), h, X.FollowPolicy(), Filled(), map[], 3).expired
  {
    hide BaseKey, Key, Filled, X.FollowPolicy, DeletePrefixState, DeleteState, PutEntryState, E.Engine.RenewedEntry;
    RenewedPlainly(engine, st, h);
    var entry := engine.RenewedEntry(X.Base(), h, X.FollowPolicy(), Filled(), map[], 3).value.0;
    var base, w := X.Base(), engine.store.world;
    StaysUnexpired(st, VaryKey(base), VariantPrefix(base), entry);
    StaysUnexpired(DeletePrefixState(w, st, VariantPrefix(base)), VaryKey(base), VariantPrefix(base), entry);
    StaysUnexpired(DeleteState(w, DeletePrefixState(w, st, VariantPrefix(base)), VaryKey(base)), ResponseKey(base),
                   VariantPrefix(base), entry);
  }

  lemma KeySpaceOfRecords(st: StoreState, st': StoreState)
    requires KeySpaceOk(X.Same, X.Base(), st) && st'.records == st.records
    ensures KeySpaceOk(X.Same, X.Base(), st')
  {
    hide IsVariant;
  }

  // So the body that has just been confirmed is gone when it is to be sent.
  lemma BodyIsGone(engine: E.Engine)
    requires IsExample(engine)
    ensures engine.IsRenewed(Asking()) && !engine.HasBody(Asking())
  {
    hide BaseKey, Key, Filled, X.FollowPolicy, E.Engine.RenewedState, E.Engine.NamesKept, Found, Sound, KeySpaceOk,
         E.Engine.AfterLookup, E.Engine.IsRenewed, E.Engine.HasBody, E.Engine.PlanOf, E.Engine.ReplyTo, Store;
    var st, plan := engine.AfterLookup(Store()), engine.PlanOf(Asking());
    IsConfirmed(engine);
    FilledFacts();
    SameRecords(engine);
    StoreIsSound();
    StoreIsKeySpace();
    KeySpaceOfRecords(Store(), st);
    EntryIsFound(engine, plan.header);
    RenewedPlainly(engine, st, plan.header);
    RenewalExpiresNothing(engine, st, plan.header);
    engine.SafeRenews(Asking());
    engine.RenewedBodyIff(Asking());
  }

  // A stored entry with a sound store around it, about to be confirmed.
  method ConfirmedEntry() returns (engine: E.Engine)
    ensures fresh(engine) && fresh(engine.store) && fresh(engine.table) && IsExample(engine)
    ensures engine.Inv(X.Base()) && Sound(engine.store.State())
    ensures engine.store.State() == Store() && engine.ticks == 2 && engine.calls == 1 && engine.table.fills == map[]
  {
    hide E.Engine.Inv, BaseKey, Key, Filled, X.FollowPolicy, Sound;
    var store := new BadgerStore(World(X.NothingLapses, X.Moments));
    store.records := map[VaryKey(X.Base()) := VaryRecord(["Origin"]), Key() := EntryRecord(Filled())];
    store.files := map[Blob(0) := [1]];
    store.history := map[Blob(0) := [1]];
    store.names := 1;
    var table := new FillTable();
    engine := new E.Engine(store, table, X.Same, X.Epoch, X.Unparsed, X.Moments, Origin);
    engine.ticks, engine.calls := 2, 1;
    engine.ledger := Ledger();
    ExampleInv(engine);
    StoreIsSound();
  }

  lemma PreparedAsAsked()
    ensures E.PrepareRequest(RC.Request("GET", ASKED), X.FollowPolicy()) == Some(ASKED)
  {
    hide X.FollowPolicy;
    FollowsOrigin();
    assert ASKED - {"Cache-Control", "Pragma"} - RC.CONDITIONAL_HEADERS == ASKED;
  }

  lemma EmptyHit(engine: E.Engine, faults: E.Faults, ledger: E.Ledger, r: E.Response)
    requires IsExample(engine) && engine.ServedWell(Asking(), faults, ledger, r)
    ensures r == E.Sent(E.Hit, 200, [], false)
  {
    hide Filled, X.FollowPolicy, E.Engine.IsRenewed, E.Engine.HasBody, Store, E.Engine.Looked, E.Engine.IsFresh,
         E.Engine.IsStale, E.Engine.FallsBack, E.Engine.IsSafe, E.Engine.Contents, E.Engine.ReplyTo, E.Engine.Leads,
         E.Engine.FreshCounted, E.Engine.StaleCounted, E.Engine.Waits, Sound, E.Engine.PlanOf, E.Engine.LookedKey;
    IsConfirmed(engine);
    BodyIsGone(engine);
    FilledFacts();
  }

  // The client is told of a hit, and gets nothing of the one byte there was.
  method LostByConfirmation() returns (r: E.Response)
    ensures r == E.Sent(E.Hit, 200, [], false)
  {
    hide E.Engine.Inv, BaseKey, Key, Filled, X.FollowPolicy, Sound, Store, RulePolicy, E.Engine.ServedWell,
         E.PrepareRequest, E.Engine.IsSafe, E.Engine.Leads, E.Engine.PlanOf, E.Engine.LookedKey;
    var engine := ConfirmedEntry();
    X.StoredOnce();
    FollowsOrigin();
    PreparedAsAsked();
    r := engine.Serve("s", "/a", "", RC.Request("GET", ASKED), X.FollowPolicy(),
                      E.Faults(false, false, false, false, 0));
    EmptyHit(engine, E.Faults(false, false, false, false, 0), engine.ledger, r);
  }
}
