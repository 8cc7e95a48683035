/** The single-flight fill protocol: requests claim a key, wait for its fill, and
    release it. Any number of requests take their steps in any order. */
module FillProtocol {
  import opened Text

  // A done channel, by the order of creation.
  type FillId = nat

  // The fills map, the closed done channels, and the next channel. Closing a closed
  // channel panics.
  datatype Table = Table(fills: map<string, FillId>, closed: set<FillId>, next: FillId, panicked: bool)

  // Under the lock: the fill of the key, and whether it was made by this call.
  function Claim(t: Table, key: string): (r: (Table, FillId, bool)) {
    if key in t.fills then (t, t.fills[key], false)
    else (t.(fills := t.fills[key := t.next], next := t.next + 1), t.next, true)
  }

  // Under the lock: the fill of the key, taken out of the map.
  function Unlink(t: Table, key: string): (r: (Table, Option<FillId>)) {
    if key in t.fills then (t.(fills := t.fills - {key}), Some(t.fills[key])) else (t, None)
  }

  function CloseDone(t: Table, fill: FillId): Table {
    t.(closed := t.closed + {fill}, panicked := t.panicked || fill in t.closed)
  }

  // What a lookup finds: an entry fresh under the policy, one that may be served stale
  // while it is refilled, or neither.
  datatype Outcome = Fresh | StaleUsable | Unusable

  // Where a request is. A leader holds a plan, in the foreground or, after a stale
  // answer, in the background; a closer has unlinked its fill but not yet closed it.
  datatype Phase =
    | Looking
    | Claiming(key: string, stale: bool)
    | Waiting(fill: FillId)
    | Leading(key: string, fill: FillId)
    | Closing(fill: FillId)
    | Done

  // owner and waited record who made each fill, and on which fills each request waited.
  datatype State = State(table: Table, phases: seq<Phase>, owner: seq<nat>, waited: seq<set<FillId>>)

  datatype Event =
    | LookUp(p: nat, key: string, outcome: Outcome)
    | TryClaim(p: nat)
    | Wake(p: nat)
    | GiveUp(p: nat)
    | Release(p: nat)
    | Close(p: nat)

  ghost predicate Enabled(s: State, e: Event) {
    e.p < |s.phases| &&
    match e
    case LookUp(p, _, _) => s.phases[p].Looking?
    case TryClaim(p) => s.phases[p].Claiming?
    case Wake(p) => s.phases[p].Waiting? && s.phases[p].fill in s.table.closed
    case GiveUp(p) => s.phases[p].Waiting?
    case Release(p) => s.phases[p].Leading?
    case Close(p) => s.phases[p].Closing?
  }

  ghost function At(s: State, p: nat, phase: Phase): State
    requires p < |s.phases|
  {
    s.(phases := s.phases[p := phase])
  }

  ghost function Next(s: State, e: Event): State
    requires Enabled(s, e) && |s.waited| == |s.phases|
  {
    match e
    case LookUp(p, key, outcome) => At(s, p, if outcome.Fresh? then Done else Claiming(key, outcome.StaleUsable?))
    case TryClaim(p) =>
      var key, stale := s.phases[p].key, s.phases[p].stale;
      var (table, fill, leader) := Claim(s.table, key);
      var s' := s.(table := table);
      if leader then At(s', p, Leading(key, fill)).(owner := s.owner + [p])
      else if stale then At(s', p, Done)
      else At(s', p, Waiting(fill)).(waited := s.waited[p := s.waited[p] + {fill}])
    case Wake(p) => At(s, p, Looking)
    case GiveUp(p) => At(s, p, Done)
    case Release(p) =>
      var (table, fill) := Unlink(s.table, s.phases[p].key);
      At(s.(table := table), p, if fill.Some? then Closing(fill.value) else Done)
    case Close(p) => At(s.(table := CloseDone(s.table, s.phases[p].fill)), p, Done)
  }

  ghost predicate Initial(s: State) {
    s.table == Table(map[], {}, 0, false) && s.owner == [] && |s.waited| == |s.phases| &&
    forall p :: 0 <= p < |s.phases| ==> s.phases[p] == Looking && s.waited[p] == {}
  }

  // The request has a plan for the fill: it is leading it or about to close it.
  ghost predicate Holds(phase: Phase, fill: FillId) {
    (phase.Leading? || phase.Closing?) && phase.fill == fill
  }

  // A key is in the map exactly while one leader holds it.
  ghost predicate KeysHeld(s: State) {
    (forall key :: key in s.table.fills ==>
       s.table.fills[key] < |s.owner| && s.owner[s.table.fills[key]] < |s.phases| &&
       s.phases[s.owner[s.table.fills[key]]] == Leading(key, s.table.fills[key])) &&
    (forall p :: 0 <= p < |s.phases| && s.phases[p].Leading? ==>
       s.phases[p].key in s.table.fills && s.table.fills[s.phases[p].key] == s.phases[p].fill)
  }

  // A fill is held by the request that made it until its channel is closed; that
  // request makes no other.
  ghost predicate FillsOwned(s: State) {
    |s.owner| == s.table.next && !s.table.panicked &&
    (forall f :: 0 <= f < |s.owner| ==>
       s.owner[f] < |s.phases| && if f in s.table.closed then s.phases[s.owner[f]].Done?
         else Holds(s.phases[s.owner[f]], f)) &&
    (forall f :: f in s.table.closed ==> f < |s.owner|) &&
    (forall p :: 0 <= p < |s.phases| && (s.phases[p].Leading? || s.phases[p].Closing?) ==>
       s.phases[p].fill < |s.owner| && s.owner[s.phases[p].fill] == p && s.phases[p].fill !in s.table.closed) &&
    (forall f, g :: 0 <= f < g < |s.owner| ==> s.owner[f] != s.owner[g])
  }

  // A request waits on fills of others only, and on each at most once: whatever it
  // waited on before is closed.
  ghost predicate WaitOk(s: State, p: nat)
    requires p < |s.phases| == |s.waited|
  {
    (s.phases[p].Waiting? ==> s.phases[p].fill in s.waited[p]) &&
    forall f :: f in s.waited[p] ==>
      f < |s.owner| && s.owner[f] != p &&
      (s.phases[p].Looking? || s.phases[p].Claiming? || (s.phases[p].Waiting? && s.phases[p].fill != f) ==>
         f in s.table.closed)
  }

  ghost predicate WaitsOnce(s: State) {
    |s.waited| == |s.phases| && forall p :: 0 <= p < |s.phases| ==> WaitOk(s, p)
  }

  // Only more closed channels and more fills, elsewhere.
  lemma WaitOkElsewhere(s: State, s': State, p: nat)
    requires WaitsOnce(s) && p < |s.phases| == |s'.phases| == |s'.waited|
    requires s.owner <= s'.owner && s.table.closed <= s'.table.closed
    requires forall q :: 0 <= q < |s.phases| && q != p ==> s'.phases[q] == s.phases[q] && s'.waited[q] == s.waited[q]
    requires WaitOk(s', p)
    ensures WaitsOnce(s')
  {
    forall q | 0 <= q < |s.phases|
      ensures WaitOk(s', q)
    {
      assert WaitOk(s, q);
    }
  }

  ghost predicate Inv(s: State) {
    KeysHeld(s) && FillsOwned(s) && WaitsOnce(s)
  }

  lemma InitialInv(s: State)
    requires Initial(s)
    ensures Inv(s)
  {
  }

  // Steps of a request that holds no plan before or after.
  lemma MoveKeeps(s: State, p: nat, phase: Phase)
    requires Inv(s) && p < |s.phases| && (s.phases[p].Looking? || s.phases[p].Waiting?)
    requires (phase.Claiming? && s.phases[p].Looking?) || phase.Done? ||
             (phase.Looking? && s.phases[p].Waiting? && s.phases[p].fill in s.table.closed)
    ensures Inv(At(s, p, phase))
  {
    var s' := At(s, p, phase);
    assert WaitOk(s, p);
    WaitOkElsewhere(s, s', p);
    SameHolders(s, s', p);
  }

  // The claiming request takes the lead under a new fill.
  lemma LeadKeeps(s: State, p: nat)
    requires Inv(s) && Enabled(s, TryClaim(p)) && s.phases[p].key !in s.table.fills
    ensures Inv(Next(s, TryClaim(p)))
  {
    hide WaitOk;
    var s', key := Next(s, TryClaim(p)), s.phases[p].key;
    assert s'.owner == s.owner + [p] && s'.phases == s.phases[p := Leading(key, s.table.next)];
    assert forall f :: 0 <= f < |s.owner| ==> s.owner[f] != p && s'.owner[f] == s.owner[f];
    assert forall q :: 0 <= q < |s.phases| && q != p ==> s'.phases[q] == s.phases[q];
    assert KeysHeld(s');
    LeaderWaitsNoMore(s, s', p);
    WaitOkElsewhere(s, s', p);
  }

  lemma LeaderWaitsNoMore(s: State, s': State, p: nat)
    requires WaitsOnce(s) && p < |s.phases| == |s'.phases| && s'.waited == s.waited && s.owner <= s'.owner &&
             s'.phases[p].Leading?
    ensures WaitOk(s', p)
  {
    assert WaitOk(s, p);
  }

  // The claiming request finds a fill, and waits for it or leaves with a stale answer.
  lemma FollowKeeps(s: State, p: nat)
    requires Inv(s) && Enabled(s, TryClaim(p)) && s.phases[p].key in s.table.fills
    ensures Inv(Next(s, TryClaim(p)))
  {
    var s', fill := Next(s, TryClaim(p)), s.table.fills[s.phases[p].key];
    assert fill !in s.table.closed && WaitOk(s, p);
    WaitOkElsewhere(s, s', p);
    SameHolders(s, s', p);
  }

  // A request that holds no plan moves without taking one.
  lemma SameHolders(s: State, s': State, p: nat)
    requires KeysHeld(s) && FillsOwned(s) && p < |s.phases| == |s'.phases| && s'.table == s.table && s'.owner == s.owner
    requires s'.phases == s.phases[p := s'.phases[p]]
    requires !s.phases[p].Leading? && !s.phases[p].Closing? && !s.phases[p].Done? && !s'.phases[p].Leading? &&
             !s'.phases[p].Closing?
    ensures KeysHeld(s') && FillsOwned(s')
  {
    assert forall f :: 0 <= f < |s.owner| ==> s.owner[f] != p;
  }

  lemma ReleaseKeeps(s: State, p: nat)
    requires Inv(s) && Enabled(s, Release(p))
    ensures Inv(Next(s, Release(p))) && Next(s, Release(p)).phases[p] == Closing(s.phases[p].fill)
  {
    var s' := Next(s, Release(p));
    assert s'.phases == s.phases[p := Closing(s.phases[p].fill)];
    assert forall q :: 0 <= q < |s.phases| && q != p ==> s'.phases[q] == s.phases[q];
    assert FillsOwned(s');
    assert WaitOk(s, p);
    WaitOkElsewhere(s, s', p);
  }

  lemma CloseKeeps(s: State, p: nat)
    requires Inv(s) && Enabled(s, Close(p))
    ensures Inv(Next(s, Close(p)))
  {
    var s', fill := Next(s, Close(p)), s.phases[p].fill;
    assert forall q :: 0 <= q < |s.phases| && q != p ==> s'.phases[q] == s.phases[q];
    assert forall f :: f in s'.table.closed <==> f in s.table.closed || f == fill;
    assert forall f :: 0 <= f < |s.owner| && s.owner[f] == p ==> f == fill;
    assert KeysHeld(s');
    assert WaitOk(s, p);
    WaitOkElsewhere(s, s', p);
  }

  // Every step keeps the invariant.
  lemma StepInv(s: State, e: Event)
    requires Inv(s) && Enabled(s, e)
    ensures Inv(Next(s, e)) && |Next(s, e).phases| == |s.phases|
  {
    hide KeysHeld, FillsOwned;
    match e
    case LookUp(p, key, outcome) => MoveKeeps(s, p, if outcome.Fresh? then Done
                                              else Claiming(key, outcome.StaleUsable?));
    case TryClaim(p) => if s.phases[p].key in s.table.fills { FollowKeeps(s, p); } else { LeadKeeps(s, p); }
    case Wake(p) => MoveKeeps(s, p, Looking);
    case GiveUp(p) => MoveKeeps(s, p, Done);
    case Release(p) => ReleaseKeeps(s, p);
    case Close(p) => CloseKeeps(s, p);
  }

  ghost predicate IsRun(states: seq<State>, events: seq<Event>) {
    |states| == |events| + 1 && Initial(states[0]) &&
    forall i :: 0 <= i < |events| ==>
      |states[i].waited| == |states[i].phases| && Enabled(states[i], events[i]) &&
      states[i + 1] == Next(states[i], events[i])
  }

  lemma {:induction false} RunInv(states: seq<State>, events: seq<Event>, n: nat)
    requires IsRun(states, events) && n <= |events|
    ensures Inv(states[n]) && |states[n].phases| == |states[0].phases|
  {
    if n == 0 {
      InitialInv(states[0]);
    } else {
      RunInv(states, events, n - 1);
      StepInv(states[n - 1], events[n - 1]);
    }
  }

  // In every interleaving: no two plans are live for one key, a key is in the map
  // exactly while one plan holds it, and closing a done channel never panics.
  lemma Safety(states: seq<State>, events: seq<Event>, n: nat)
    requires IsRun(states, events) && n <= |events|
    ensures var s := states[n];
            (forall p, q ::
               0 <= p < |s.phases| && 0 <= q < |s.phases| && s.phases[p].Leading? && s.phases[q].Leading? &&
               s.phases[p].key == s.phases[q].key ==>
                 p == q) &&
            (forall key :: key in s.table.fills <==>
               exists p :: 0 <= p < |s.phases| && s.phases[p].Leading? && s.phases[p].key == key) &&
            !s.table.panicked
  {
    RunInv(states, events, n);
    var s := states[n];
    forall key | key in s.table.fills
      ensures exists p :: 0 <= p < |s.phases| && s.phases[p].Leading? && s.phases[p].key == key
    {
      assert s.phases[s.owner[s.table.fills[key]]].Leading?;
    }
  }

  // The plan a request releases is the one it made, and its release always closes.
  lemma ReleasesOwn(states: seq<State>, events: seq<Event>, n: nat)
    requires IsRun(states, events) && n < |events| && events[n].Release?
    ensures var p := events[n].p;
            |states[n].owner| > states[n].phases[p].fill && states[n].owner[states[n].phases[p].fill] == p &&
            states[n + 1].phases[p] == Closing(states[n].phases[p].fill)
  {
    RunInv(states, events, n);
    ReleaseKeeps(states[n], events[n].p);
  }

  // A waiter's fill is closed, or another request holds it and can take the steps
  // that close it.
  lemma NoLostWakeup(states: seq<State>, events: seq<Event>, n: nat, p: nat)
    requires IsRun(states, events) && n <= |events| && p < |states[n].phases| && states[n].phases[p].Waiting?
    ensures var s := states[n];
            var f := s.phases[p].fill;
            f < |s.owner| && s.owner[f] < |s.phases| && s.owner[f] != p &&
            (Enabled(s, Wake(p)) || (Holds(s.phases[s.owner[f]], f) &&
                                     (Enabled(s, Release(s.owner[f])) || Enabled(s, Close(s.owner[f])))))
  {
    RunInv(states, events, n);
    assert WaitOk(states[n], p);
  }

  // Some request can move unless all are done, even if none ever gives up.
  lemma NoDeadlock(states: seq<State>, events: seq<Event>, n: nat)
    requires IsRun(states, events) && n <= |events|
    ensures (forall p :: 0 <= p < |states[n].phases| ==> states[n].phases[p].Done?) ||
            exists e: Event :: Enabled(states[n], e) && !e.GiveUp?
  {
    RunInv(states, events, n);
    var s := states[n];
    if p :| 0 <= p < |s.phases| && !s.phases[p].Done? {
      match s.phases[p]
      case Looking => assert Enabled(s, LookUp(p, "", Fresh));
      case Claiming(_, _) => assert Enabled(s, TryClaim(p));
      case Waiting(f) =>
        NoLostWakeup(states, events, n, p);
        var q := s.owner[f];
        if Enabled(s, Wake(p)) {
        } else if s.phases[q].Leading? {
          assert Enabled(s, Release(q));
        } else {
          assert Enabled(s, Close(q));
        }
      case Leading(_, _) => assert Enabled(s, Release(p));
      case Closing(_) => assert Enabled(s, Close(p));
    }
  }

  lemma {:induction false} DistinctBelow(s: seq<nat>, n: nat)
    requires forall i :: 0 <= i < |s| ==> s[i] < n
    requires forall i, j :: 0 <= i < j < |s| ==> s[i] != s[j]
    ensures |s| <= n
    decreases n
  {
    if s != [] {
      assert s[0] < n;
      var below := DropValue(s, n - 1);
      DistinctBelow(below, n - 1);
    }
  }

  // The sequence without the given value, which it holds at most once.
  lemma DropValue(s: seq<nat>, v: nat) returns (r: seq<nat>)
    requires forall i, j :: 0 <= i < j < |s| ==> s[i] != s[j]
    ensures |r| >= |s| - 1 && (v !in s ==> r == s)
    ensures forall i :: 0 <= i < |r| ==> r[i] in s && r[i] != v
    ensures forall i, j :: 0 <= i < j < |r| ==> r[i] != r[j]
  {
    if v in s {
      var k :| 0 <= k < |s| && s[k] == v;
      r := s[..k] + s[k + 1..];
    } else {
      r := s;
    }
  }

  // N requests cause at most N fills.
  lemma FillsBounded(states: seq<State>, events: seq<Event>, n: nat)
    requires IsRun(states, events) && n <= |events|
    ensures states[n].table.next <= |states[0].phases|
  {
    RunInv(states, events, n);
    DistinctBelow(states[n].owner, |states[n].phases|);
  }

  lemma {:induction false} WaitedBelow(owner: seq<nat>, waited: set<FillId>, p: nat, n: nat)
    requires p < n && forall f :: f in waited ==> f < |owner| && owner[f] != p
    requires forall f :: 0 <= f < |owner| ==> owner[f] < n
    requires forall f, g :: 0 <= f < g < |owner| ==> owner[f] != owner[g]
    ensures |waited| <= n - 1
  {
    var owners := OwnersOf(owner, waited);
    var others := OthersOf(owners, p);
    DistinctBelow(others, n);
  }

  lemma {:induction false} OwnersOf(owner: seq<nat>, fills: set<FillId>) returns (r: seq<nat>)
    requires forall f :: f in fills ==> f < |owner|
    requires forall f, g :: 0 <= f < g < |owner| ==> owner[f] != owner[g]
    ensures |r| == |fills| && forall i :: 0 <= i < |r| ==> exists f :: f in fills && owner[f] == r[i]
    ensures forall i, j :: 0 <= i < j < |r| ==> r[i] != r[j]
    decreases fills
  {
    if fills == {} {
      r := [];
    } else {
      var f :| f in fills;
      var rest := OwnersOf(owner, fills - {f});
      assert owner[f] !in rest;
      r := rest + [owner[f]];
    }
  }

  // One more distinct value.
  lemma OthersOf(s: seq<nat>, p: nat) returns (r: seq<nat>)
    requires p !in s && forall i, j :: 0 <= i < j < |s| ==> s[i] != s[j]
    ensures r == s + [p] && forall i, j :: 0 <= i < j < |r| ==> r[i] != r[j]
  {
    r := s + [p];
  }

  // The bound is reached: a request that looked before a fill was released and claims
  // after it fetches again.
  lemma LateClaimLeadsAgain(key: string) returns (states: seq<State>, events: seq<Event>)
    ensures IsRun(states, events) && |states[0].phases| == 2 && states[|events|].table.next == 2
    ensures forall e :: e in events && e.LookUp? ==> e.key == key && e.outcome.Unusable?
  {
    events := [LookUp(0, key, Unusable), LookUp(1, key, Unusable), TryClaim(0), Release(0), Close(0), TryClaim(1)];
    var s0 := State(Table(map[], {}, 0, false), [Looking, Looking], [], [{}, {}]);
    var s1 := Next(s0, events[0]);
    var s2 := Next(s1, events[1]);
    assert s2.phases == [Claiming(key, false), Claiming(key, false)];
    var s3 := Next(s2, events[2]);
    assert s3.phases == [Leading(key, 0), Claiming(key, false)] && s3.table.fills == map[key := 0];
    var s4 := Next(s3, events[3]);
    assert s4.phases == [Closing(0), Claiming(key, false)] && s4.table.fills == map[];
    var s5 := Next(s4, events[4]);
    var s6 := Next(s5, events[5]);
    states := [s0, s1, s2, s3, s4, s5, s6];
  }

  ghost function TotalWaits(waited: seq<set<FillId>>): nat {
    if waited == [] then 0 else |waited[0]| + TotalWaits(waited[1..])
  }

  lemma {:induction false} SumBounded(waited: seq<set<FillId>>, bound: nat)
    requires forall p :: 0 <= p < |waited| ==> |waited[p]| <= bound
    ensures TotalWaits(waited) <= |waited| * bound
  {
    if waited != [] {
      SumBounded(waited[1..], bound);
      assert |waited| * bound == bound + (|waited| - 1) * bound;
    }
  }

  // And at most N(N - 1) waits: no request waits for itself, or twice on one fill.
  lemma WaitsBounded(states: seq<State>, events: seq<Event>, n: nat)
    requires IsRun(states, events) && n <= |events|
    ensures var count := |states[0].phases|;
            (forall p :: 0 <= p < |states[n].waited| ==> |states[n].waited[p]| <= count - 1) &&
            (count > 0 ==> TotalWaits(states[n].waited) <= count * (count - 1))
  {
    RunInv(states, events, n);
    var s := states[n];
    forall p | 0 <= p < |s.waited|
      ensures |s.waited[p]| <= |s.phases| - 1
    {
      assert WaitOk(s, p);
      WaitedBelow(s.owner, s.waited[p], p, |s.phases|);
    }
    if |s.phases| > 0 {
      SumBounded(s.waited, |s.phases| - 1);
    }
  }

  // Every wait that begins is on a fill not waited on before, so the sets count the waits.
  lemma WaitIsNew(states: seq<State>, events: seq<Event>, n: nat)
    requires IsRun(states, events) && n < |events|
    ensures var p, s, s' := events[n].p, states[n], states[n + 1];
            !s.phases[p].Waiting? && s'.phases[p].Waiting? ==>
              s'.phases[p].fill !in s.waited[p] && |s'.waited[p]| == |s.waited[p]| + 1
  {
    RunInv(states, events, n);
    var p, s := events[n].p, states[n];
    assert WaitOk(s, p);
    if s.phases[p].Claiming? && s.phases[p].key in s.table.fills {
      var f := s.table.fills[s.phases[p].key];
      assert f !in s.table.closed;
    }
  }

  // Steps a request may still take, however the others move.
  ghost function Rank(phase: Phase, waits: nat, count: nat): int {
    var left := count - waits;
    match phase
    case Looking => 3 * left + 5
    case Claiming(_, _) => 3 * left + 4
    case Waiting(_) => 3 * left + 6
    case Leading(_, _) => 2
    case Closing(_) => 1
    case Done => 0
  }

  ghost function Measure(phases: seq<Phase>, waited: seq<set<FillId>>, count: nat): int
    requires |phases| == |waited|
  {
    if phases == [] then 0
    else Rank(phases[0], |waited[0]|, count) + Measure(phases[1..], waited[1..], count)
  }

  lemma {:induction false} MeasureUpdate(phases: seq<Phase>, waited: seq<set<FillId>>, count: nat, p: nat, phase: Phase,
                                         w: set<FillId>)
    requires |phases| == |waited| && p < |phases|
    ensures Measure(phases[p := phase], waited[p := w], count) ==
            Measure(phases, waited, count) - Rank(phases[p], |waited[p]|, count) + Rank(phase, |w|, count)
  {
    if p == 0 {
      assert phases[p := phase][1..] == phases[1..] && waited[p := w][1..] == waited[1..];
    } else {
      MeasureUpdate(phases[1..], waited[1..], count, p - 1, phase, w);
      assert phases[p := phase][1..] == phases[1..][p - 1 := phase];
      assert waited[p := w][1..] == waited[1..][p - 1 := w];
    }
  }

  lemma {:induction false} MeasureBounds(phases: seq<Phase>, waited: seq<set<FillId>>, count: nat)
    requires |phases| == |waited| && forall p :: 0 <= p < |waited| ==> |waited[p]| <= count
    ensures 0 <= Measure(phases, waited, count) <= |phases| * (3 * count + 6)
  {
    if phases != [] {
      MeasureBounds(phases[1..], waited[1..], count);
      assert |phases| * (3 * count + 6) == 3 * count + 6 + (|phases| - 1) * (3 * count + 6);
    }
  }

  // A step changes only the request that takes it.
  lemma OnlyItsOwn(s: State, e: Event)
    requires Inv(s) && Enabled(s, e)
    ensures var s' := Next(s, e);
            |s'.phases| == |s'.waited| == |s.phases| && s'.phases == s.phases[e.p := s'.phases[e.p]] &&
            s'.waited == s.waited[e.p := s'.waited[e.p]]
  {
    hide KeysHeld, FillsOwned;
  }

  lemma RankFalls(s: State, e: Event, count: nat)
    requires Inv(s) && Enabled(s, e) && |s.waited[e.p]| <= count - 1
    requires |Next(s, e).phases| == |Next(s, e).waited| == |s.phases|
    requires var s' := Next(s, e);
             !s.phases[e.p].Waiting? && s'.phases[e.p].Waiting? ==> |s'.waited[e.p]| == |s.waited[e.p]| + 1
    ensures Rank(Next(s, e).phases[e.p], |Next(s, e).waited[e.p]|, count) < Rank(s.phases[e.p], |s.waited[e.p]|, count)
  {
    hide KeysHeld, FillsOwned;
  }

  // Every step makes the measure smaller.
  lemma MeasureDecreases(states: seq<State>, events: seq<Event>, n: nat)
    requires IsRun(states, events) && n < |events|
    ensures var count := |states[0].phases|;
            |states[n].phases| == |states[n].waited| == count &&
            |states[n + 1].phases| == |states[n + 1].waited| == count &&
            Measure(states[n + 1].phases, states[n + 1].waited, count) < Measure(states[n].phases, states[n].waited,
                                                                                 count)
  {
    RunInv(states, events, n);
    RunInv(states, events, n + 1);
    WaitsBounded(states, events, n);
    WaitIsNew(states, events, n);
    var s, s', p, count := states[n], states[n + 1], events[n].p, |states[0].phases|;
    OnlyItsOwn(s, events[n]);
    RankFalls(s, events[n], count);
    MeasureUpdate(s.phases, s.waited, count, p, s'.phases[p], s'.waited[p]);
  }

  lemma {:induction false} MeasureFalls(states: seq<State>, events: seq<Event>, n: nat)
    requires IsRun(states, events) && n <= |events|
    ensures var count := |states[0].phases|;
            |states[n].phases| == |states[n].waited| == count && |states[0].waited| == count &&
            Measure(states[n].phases, states[n].waited, count) <= Measure(states[0].phases, states[0].waited, count) - n
  {
    if n > 0 {
      MeasureFalls(states, events, n - 1);
      MeasureDecreases(states, events, n - 1);
    }
  }

  // No schedule runs for more than N(3N + 6) steps: with NoDeadlock, every schedule
  // that goes on as long as it can ends with all requests done.
  lemma RunsEnd(states: seq<State>, events: seq<Event>)
    requires IsRun(states, events)
    ensures |events| <= |states[0].phases| * (3 * |states[0].phases| + 6)
  {
    var n, count := |events|, |states[0].phases|;
    MeasureFalls(states, events, n);
    WaitsBounded(states, events, n);
    WaitsBounded(states, events, 0);
    MeasureBounds(states[n].phases, states[n].waited, count);
    MeasureBounds(states[0].phases, states[0].waited, count);
  }

  /** The engine's fills map. Each method is one critical section, but for the close
      that follows the unlinking. releases logs the keys of the release calls. */
  class FillTable {
    var fills: map<string, FillId>
    var next: FillId
    ghost var closed: set<FillId>
    ghost var panicked: bool
    ghost var releases: seq<string>

    constructor ()
      ensures Value() == Table(map[], {}, 0, false) && releases == []
    {
      fills, next, closed, panicked, releases := map[], 0, {}, false, [];
    }

    ghost function Value(): Table
      reads this
    {
      Table(fills, closed, next, panicked)
    }

    method ClaimFill(key: string) returns (fill: FillId, leader: bool)
      modifies this
      ensures (Value(), fill, leader) == Claim(old(Value()), key) && releases == old(releases)
    {
      if key in fills {
        return fills[key], false;
      }
      fill, leader := next, true;
      fills, next := fills[key := fill], next + 1;
    }

    method ReleaseFill(key: string)
      modifies this
      ensures var (table, fill) := Unlink(old(Value()), key);
              Value() == if fill.Some? then CloseDone(table, fill.value) else table
      ensures releases == old(releases) + [key]
    {
      releases := releases + [key];
      if key in fills {
        ghost var fill := fills[key];
        fills := fills - {key};
        panicked := panicked || fill in closed;
        closed := closed + {fill};
      }
    }
  }
}
