/** The rule form: its conditions, how editing changes their grouping, and the way
    from a rule to the form and back. */
module RuleForm {
  import opened Text
  import opened Headers
  import opened Policies
  import opened Config
  import opened Grouping
  import opened Runtime

  // The logical operator is empty where the form has none.
  datatype Condition = Condition(id: string, logical: string, field: string, operator: string, name: string,
                                 value: string)

  datatype FormState = FormState(name: string, enabled: bool, conditions: seq<Condition>, action: CacheAction)

  predicate StartsGroup(c: Condition) {
    c.logical == "or"
  }

  method SplitConditionGroups(conditions: seq<Condition>) returns (groups: seq<seq<Condition>>)
    ensures groups == Groups(conditions, StartsGroup)
  {
    groups := [];
    for n := 0 to |conditions|
      invariant groups == Groups(conditions[..n], StartsGroup)
    {
      GroupsSnoc(conditions, n, StartsGroup);
      if |groups| == 0 || conditions[n].logical == "or" {
        groups := groups + [[conditions[n]]];
        continue;
      }
      groups := groups[|groups| - 1 := groups[|groups| - 1] + [conditions[n]]];
    }
    assert conditions[..|conditions|] == conditions;
  }

  function IndexOf(conditions: seq<Condition>, id: string): (r: Option<nat>)
    ensures r.Some? ==> r.value < |conditions| && conditions[r.value].id == id && forall i :: 0 <= i < r.value ==>
              conditions[i].id != id
    ensures r.None? ==> forall i :: 0 <= i < |conditions| ==> conditions[i].id != id
  {
    if conditions == [] then None
    else if conditions[0].id == id then Some(0)
    else
      match IndexOf(conditions[1..], id)
      case None => None
      case Some(k) => Some(k + 1)
  }

  function Blank(id: string, logical: string): Condition {
    Condition(id, logical, "hostname", "equals", "", "")
  }

  lemma BlankConditionIs(id: string, logical: string)
    ensures var c := Blank(id, logical);
            c.id == id && c.logical == logical && c.field == "hostname" && c.operator == "equals" && c.name == "" &&
            c.value == ""
  {
  }

  // Keeps the elements with other ids, in order.
  function Keep(block: seq<Condition>, id: string): seq<Condition> {
    if block == [] then []
    else
      var n := |block| - 1;
      Keep(block[..n], id) + if block[n].id == id then [] else [block[n]]
  }

  // A new blank condition after the given one. In terms of the blocks shown: with "and" it
  // joins the block of the given one, right after it; with "or" it cuts the block there.
  method InsertCondition(conditions: seq<Condition>, afterId: string, logical: string, freshId: string)
    returns (next: seq<Condition>)
    ensures match IndexOf(conditions, afterId)
            case None => next == conditions
            case Some(k) =>
              next == conditions[..k + 1] + [Blank(freshId, logical)] + conditions[k + 1..] &&
              (HasNo(conditions[k + 1..], afterId) ==>
                 var x := Erased(Blank(freshId, logical));
                 Blocks(next) == if logical == "or" then CutBlocks(Blocks(conditions), afterId, x)
                   else AddInBlocks(Blocks(conditions), afterId, x))
  {
    hide Blocks, CutBlocks, AddInBlocks, HasNo;
    var index := IndexOf(conditions, afterId);
    if index.None? {
      return conditions;
    }
    next := conditions[..index.value + 1] + [Blank(freshId, logical)] + conditions[index.value + 1..];
    if HasNo(conditions[index.value + 1..], afterId) {
      NoneEarlier(conditions, afterId);
      InsertRefinesGrouping(conditions, index.value, logical, freshId);
    }
  }

  lemma NoneEarlier(conditions: seq<Condition>, id: string)
    requires IndexOf(conditions, id).Some?
    ensures HasNo(conditions[..IndexOf(conditions, id).value], id)
  {
  }

  // Without the given condition. The first condition has no operator, and the one after
  // a removed block head heads what is left of the block.
  // In terms of the blocks shown: the condition is gone from its block, and the block if
  // it was alone there; a form left empty shows one blank condition.
  method RemoveCondition(conditions: seq<Condition>, id: string, freshId: string) returns (next: seq<Condition>)
    ensures next == Removed(conditions, id, freshId)
    ensures match IndexOf(conditions, id)
            case None => Blocks(next) == Blocks(conditions)
            case Some(k) =>
              next != [] && next[0].logical == "" &&
              (HasNo(conditions[..k], id) && HasNo(conditions[k + 1..], id) ==>
                 Blocks(next) == if |conditions| == 1 then [[Blank(freshId, "")]]
                   else DeleteFromBlocks(Blocks(conditions), id))
  {
    hide Blocks, DeleteFromBlocks, HasNo, Keep;
    var index := IndexOf(conditions, id);
    if index.None? {
      return conditions;
    }
    RemovedShows(conditions, index.value, freshId);
    next := Keep(conditions, id);
    if |next| > 0 {
      next := next[0 := next[0].(logical := "")];
      if index.value > 0 && conditions[index.value].logical == "or" && index.value < |next| {
        next := next[index.value := next[index.value].(logical := "or")];
      }
    } else {
      next := [Blank(freshId, "")];
    }
  }

  function Removed(conditions: seq<Condition>, id: string, freshId: string): seq<Condition> {
    match IndexOf(conditions, id)
    case None => conditions
    case Some(k) =>
      var kept := Keep(conditions, id);
      if kept == [] then [Blank(freshId, "")]
      else
        var headed := kept[0 := kept[0].(logical := "")];
        if k > 0 && conditions[k].logical == "or" &&
        k < |headed| then headed[k := headed[k].(logical := "or")] else headed
  }

  // What a condition says, apart from how it is joined.
  function Erased(c: Condition): Condition {
    c.(logical := "")
  }

  // The blocks of conditions, apart from how they are joined.
  function PushErased(groups: seq<seq<Condition>>, xs: seq<Condition>): seq<seq<Condition>>
    decreases |xs|
  {
    if xs == [] then groups else PushErased(Push(groups, Erased(xs[0]), StartsGroup(xs[0])), xs[1..])
  }

  function Blocks(conditions: seq<Condition>): seq<seq<Condition>> {
    PushErased([], conditions)
  }

  function EraseAll(block: seq<Condition>): (r: seq<Condition>)
    ensures |r| == |block| && forall i :: 0 <= i < |r| ==> r[i] == Erased(block[i])
  {
    if block == [] then [] else [Erased(block[0])] + EraseAll(block[1..])
  }

  function EraseGroups(groups: seq<seq<Condition>>): (r: seq<seq<Condition>>)
    ensures |r| == |groups| && forall i :: 0 <= i < |r| ==> r[i] == EraseAll(groups[i])
  {
    if groups == [] then [] else [EraseAll(groups[0])] + EraseGroups(groups[1..])
  }

  lemma ErasePush(groups: seq<seq<Condition>>, x: Condition, starts: bool)
    ensures EraseGroups(Push(groups, x, starts)) == Push(EraseGroups(groups), Erased(x), starts)
  {
    assert EraseAll([x]) == [Erased(x)];
    if groups != [] && !starts {
      assert EraseAll(groups[|groups| - 1] + [x]) == EraseAll(groups[|groups| - 1]) + [Erased(x)];
    }
  }

  lemma {:induction false} BlocksAreGroups(groups: seq<seq<Condition>>, xs: seq<Condition>)
    ensures EraseGroups(PushAll(groups, xs, StartsGroup)) == PushErased(EraseGroups(groups), xs)
    decreases |xs|
  {
    if xs != [] {
      var starts := StartsGroup(xs[0]);
      var pushed := Push(groups, xs[0], starts);
      ErasePush(groups, xs[0], starts);
      BlocksAreGroups(pushed, xs[1..]);
    }
  }

  lemma {:induction false} PushErasedConcat(groups: seq<seq<Condition>>, a: seq<Condition>, b: seq<Condition>)
    ensures PushErased(groups, a + b) == PushErased(PushErased(groups, a), b)
    decreases |a|
  {
    if a == [] {
      assert a + b == b;
    } else {
      assert (a + b)[1..] == a[1..] + b;
      PushErasedConcat(Push(groups, Erased(a[0]), StartsGroup(a[0])), a[1..], b);
    }
  }

  // The blocks without the given condition; a block left empty goes.
  function DeleteFromBlocks(groups: seq<seq<Condition>>, id: string): seq<seq<Condition>> {
    if groups == [] then []
    else
      var n := |groups| - 1;
      var kept := Keep(groups[n], id);
      DeleteFromBlocks(groups[..n], id) + if kept == [] then [] else [kept]
  }

  ghost predicate HasNo(xs: seq<Condition>, id: string) {
    forall i :: 0 <= i < |xs| ==> xs[i].id != id
  }

  lemma KeepSnoc(block: seq<Condition>, x: Condition, id: string)
    ensures Keep(block + [x], id) == Keep(block, id) + if x.id == id then [] else [x]
  {
    assert (block + [x])[..|block|] == block;
  }

  lemma KeepOne(x: Condition, id: string)
    ensures Keep([x], id) == if x.id == id then [] else [x]
  {
    KeepSnoc([], x, id);
    assert [] + [x] == [x];
  }

  lemma DeleteSnoc(groups: seq<seq<Condition>>, block: seq<Condition>, id: string)
    ensures DeleteFromBlocks(groups + [block], id) == DeleteFromBlocks(groups, id) + if Keep(block, id) == [] then []
              else [Keep(block, id)]
  {
    hide Keep;
    assert (groups + [block])[..|groups|] == groups;
  }

  // One more condition of another id, as long as the last block survives.
  lemma DeletePush(groups: seq<seq<Condition>>, x: Condition, starts: bool, id: string)
    requires groups != [] && Keep(groups[|groups| - 1], id) != [] && x.id != id
    ensures var pushed := Push(groups, x, starts);
            DeleteFromBlocks(groups, id) != [] && DeleteFromBlocks(pushed, id) ==
              Push(DeleteFromBlocks(groups, id), x, starts) && Keep(pushed[|pushed| - 1], id) != []
  {
    hide Keep, DeleteFromBlocks;
    var n := |groups| - 1;
    var before, last := groups[..n], groups[n];
    assert groups == before + [last];
    DeleteSnoc(before, last, id);
    if starts {
      KeepOne(x, id);
      DeleteSnoc(groups, [x], id);
    } else {
      KeepSnoc(last, x, id);
      DeleteSnoc(before, last + [x], id);
    }
  }

  // Deleting commutes with adding other conditions.
  lemma {:induction false} DeleteThenPush(groups: seq<seq<Condition>>, xs: seq<Condition>, id: string)
    requires groups != [] && Keep(groups[|groups| - 1], id) != [] && HasNo(xs, id)
    ensures DeleteFromBlocks(PushErased(groups, xs), id) == PushErased(DeleteFromBlocks(groups, id), xs)
    ensures PushErased(groups, xs) != [] && Keep(PushErased(groups, xs)[|PushErased(groups, xs)| - 1], id) != []
    decreases |xs|
  {
    hide Keep, DeleteFromBlocks;
    if xs != [] {
      DeletePush(groups, Erased(xs[0]), StartsGroup(xs[0]), id);
      DeleteThenPush(Push(groups, Erased(xs[0]), StartsGroup(xs[0])), xs[1..], id);
    }
  }

  // Blocks of other conditions lose nothing.
  lemma OthersStay(a: seq<Condition>, id: string)
    requires a != [] && HasNo(a, id)
    ensures Blocks(a) != [] && DeleteFromBlocks(Blocks(a), id) == Blocks(a) &&
            Keep(Blocks(a)[|Blocks(a)| - 1], id) != []
  {
    hide Keep, DeleteFromBlocks;
    var x := Erased(a[0]);
    OneBlock(x, id);
    DeleteThenPush([[x]], a[1..], id);
    assert [] + [[x]] == [[x]];
  }

  lemma OneBlock(x: Condition, id: string)
    requires x.id != id
    ensures DeleteFromBlocks([[x]], id) == [[x]] && Keep([[x]][0], id) == [x]
  {
    hide Keep;
    KeepOne(x, id);
    DeleteSnoc([], [x], id);
    assert [] + [[x]] == [[x]];
  }

  lemma {:induction false} KeepAll(a: seq<Condition>, id: string)
    requires HasNo(a, id)
    ensures Keep(a, id) == a
    decreases |a|
  {
    if a != [] { KeepAll(a[..|a| - 1], id); }
  }

  lemma {:induction false} KeepConcat(a: seq<Condition>, b: seq<Condition>, id: string)
    ensures Keep(a + b, id) == Keep(a, id) + Keep(b, id)
    decreases |b|
  {
    if b == [] {
      assert a + b == a;
    } else {
      var n := |b| - 1;
      assert (a + b)[..|a| + n] == a + b[..n];
      KeepConcat(a, b[..n], id);
    }
  }

  lemma KeepAround(a: seq<Condition>, c: Condition, b: seq<Condition>)
    requires HasNo(a, c.id) && HasNo(b, c.id)
    ensures Keep(a + [c] + b, c.id) == a + b
  {
    hide Keep, HasNo;
    KeepConcat(a + [c], b, c.id);
    KeepSnoc(a, c, c.id);
    KeepAll(a, c.id);
    KeepAll(b, c.id);
  }

  lemma IndexIs(conditions: seq<Condition>, k: nat)
    requires k < |conditions| && HasNo(conditions[..k], conditions[k].id)
    ensures IndexOf(conditions, conditions[k].id) == Some(k)
  {
    var at := IndexOf(conditions, conditions[k].id);
    assert forall i :: 0 <= i < k ==> conditions[..k][i] == conditions[i];
  }

  // What is removed and what surrounds it.
  lemma RemovedParts(conditions: seq<Condition>, k: nat, freshId: string)
    requires k < |conditions| && |conditions| > 1 && HasNo(conditions[..k], conditions[k].id) &&
             HasNo(conditions[k + 1..], conditions[k].id)
    ensures var a, c, b := conditions[..k], conditions[k], conditions[k + 1..];
            Removed(conditions, c.id, freshId) ==
            if a == [] then b[0 := b[0].(logical := "")]
            else a[0 := a[0].(logical := "")] + if c.logical == "or" &&
                 b != [] then b[0 := b[0].(logical := "or")] else b
  {
    hide IndexOf, Keep, HasNo;
    var a, c, b := conditions[..k], conditions[k], conditions[k + 1..];
    IndexIs(conditions, k);
    assert conditions == a + [c] + b;
    KeepAround(a, c, b);
    HeadedParts(a, c, b);
  }

  lemma HeadedParts(a: seq<Condition>, c: Condition, b: seq<Condition>)
    requires a + b != []
    ensures var headed := (a + b)[0 := (a + b)[0].(logical := "")];
            (if |a| > 0 && c.logical == "or" && |a| < |headed| then headed[|a| := headed[|a|].(logical := "or")]
             else headed) ==
            if a == [] then b[0 := b[0].(logical := "")]
            else a[0 := a[0].(logical := "")] + if c.logical == "or" &&
                 b != [] then b[0 := b[0].(logical := "or")] else b
  {
    if a == [] { assert a + b == b; }
  }

  // The first condition opens a block whatever its operator.
  lemma FirstOpens(xs: seq<Condition>, logical: string)
    requires xs != []
    ensures Blocks(xs[0 := xs[0].(logical := logical)]) == Blocks(xs)
  {
    var ys := xs[0 := xs[0].(logical := logical)];
    assert ys[1..] == xs[1..] && Erased(ys[0]) == Erased(xs[0]);
  }

  lemma RemovedShows(conditions: seq<Condition>, k: nat, freshId: string)
    requires k < |conditions| && IndexOf(conditions, conditions[k].id) == Some(k)
    ensures var next := Removed(conditions, conditions[k].id, freshId);
            next != [] && next[0].logical == "" &&
            (HasNo(conditions[..k], conditions[k].id) && HasNo(conditions[k + 1..], conditions[k].id) ==>
               Blocks(next) == if |conditions| == 1 then [[Blank(freshId, "")]]
                 else DeleteFromBlocks(Blocks(conditions), conditions[k].id))
  {
    hide Blocks, DeleteFromBlocks, HasNo, Keep;
    if HasNo(conditions[..k], conditions[k].id) && HasNo(conditions[k + 1..], conditions[k].id) {
      RemoveRefinesGrouping(conditions, k, freshId);
    }
  }

  // Removing a condition removes it from its block, dropping the block if it was alone
  // there, and leaves the other blocks as they are, in order. Without its only condition
  // the form shows a blank one.
  lemma RemoveRefinesGrouping(conditions: seq<Condition>, k: nat, freshId: string)
    requires k < |conditions| && HasNo(conditions[..k], conditions[k].id) &&
             HasNo(conditions[k + 1..], conditions[k].id)
    ensures Blocks(Removed(conditions, conditions[k].id, freshId)) ==
            if |conditions| == 1 then [[Blank(freshId, "")]] else DeleteFromBlocks(Blocks(conditions), conditions[k].id)
  {
    if |conditions| == 1 {
      RemoveOnly(conditions[0], freshId);
      assert conditions == [conditions[0]];
    } else {
      RemoveOneOfMany(conditions, k, freshId);
    }
  }

  lemma RemoveOnly(c: Condition, freshId: string)
    ensures Blocks(Removed([c], c.id, freshId)) == [[Blank(freshId, "")]]
  {
    KeepOne(c, c.id);
    assert Removed([c], c.id, freshId) == [Blank(freshId, "")];
    var x := Blank(freshId, "");
    assert [x][1..] == [] && [[x]] == [] + [[Erased(x)]];
    assert Push([], Erased(x), StartsGroup(x)) == [[x]];
    assert Blocks([x]) == PushErased([[x]], []);
  }

  lemma RemoveOneOfMany(conditions: seq<Condition>, k: nat, freshId: string)
    requires k < |conditions| && |conditions| > 1 && HasNo(conditions[..k], conditions[k].id) &&
             HasNo(conditions[k + 1..], conditions[k].id)
    ensures Blocks(Removed(conditions, conditions[k].id, freshId)) ==
              DeleteFromBlocks(Blocks(conditions), conditions[k].id)
  {
    hide Removed, IndexOf, DeleteFromBlocks, Keep;
    var a, c, b := conditions[..k], conditions[k], conditions[k + 1..];
    RemovedParts(conditions, k, freshId);
    assert conditions == (a + [c]) + b;
    if a == [] {
      assert conditions == [c] + b;
      RemoveFirst(c, b);
      FirstOpens(b, "");
    } else {
      PushErasedConcat([], a + [c], b);
      PushErasedConcat([], a, [c]);
      OthersStay(a, c.id);
      FirstOpens(a, "");
      var headed := a[0 := a[0].(logical := "")];
      if c.logical == "or" && b != [] {
        PushErasedConcat([], headed, b[0 := b[0].(logical := "or")]);
        RemoveHead(Blocks(a), c, b);
      } else {
        PushErasedConcat([], headed, b);
        RemoveInside(Blocks(a), c, b);
      }
    }
  }

  // A condition about to be removed, at the head of a block, and the one after it.
  lemma HeadGoes(groups: seq<seq<Condition>>, c: Condition, x: Condition, starts: bool)
    requires x.id != c.id && DeleteFromBlocks(groups, c.id) == groups
    ensures var pushed := Push(groups + [[c]], x, starts);
            DeleteFromBlocks(groups + [[c]], c.id) == groups && DeleteFromBlocks(pushed, c.id) == groups + [[x]] &&
            Keep(pushed[|pushed| - 1], c.id) == [x]
  {
    hide Keep, DeleteFromBlocks;
    var begun := groups + [[c]];
    KeepOne(c, c.id);
    KeepOne(x, c.id);
    DeleteSnoc(groups, [c], c.id);
    if starts {
      DeleteSnoc(begun, [x], c.id);
    } else {
      assert begun[..|groups|] == groups;
      KeepSnoc([c], x, c.id);
      assert [] + [x] == [x];
      DeleteSnoc(groups, [c] + [x], c.id);
    }
  }

  lemma RemoveFirst(c: Condition, b: seq<Condition>)
    requires b != [] && HasNo(b, c.id)
    ensures DeleteFromBlocks(Blocks([c] + b), c.id) == Blocks(b)
  {
    hide Keep, DeleteFromBlocks;
    var x := Erased(b[0]);
    assert ([c] + b)[1..] == b && ([c] + b)[0] == c;
    assert [] + [[Erased(c)]] == [[Erased(c)]] && [] + [[x]] == [[x]];
    NoBlocksStay(c.id);
    HeadGoes([], Erased(c), x, StartsGroup(b[0]));
    assert HasNo(b[1..], c.id);
    var groups := Push([[Erased(c)]], x, StartsGroup(b[0]));
    DeleteThenPush(groups, b[1..], c.id);
    assert PushErased([], [c] + b) == PushErased([[Erased(c)]], b);
    assert PushErased([[Erased(c)]], b) == PushErased(groups, b[1..]);
    assert PushErased([], b) == PushErased([[x]], b[1..]);
  }

  lemma NoBlocksStay(id: string)
    ensures DeleteFromBlocks([], id) == []
  {
  }

  // A removed block head hands the start of its block on.
  lemma RemoveHead(groups: seq<seq<Condition>>, c: Condition, b: seq<Condition>)
    requires groups != [] && c.logical == "or" && b != [] && HasNo(b, c.id) && DeleteFromBlocks(groups, c.id) == groups
    ensures DeleteFromBlocks(PushErased(PushErased(groups, [c]), b), c.id) ==
              PushErased(groups, b[0 := b[0].(logical := "or")])
  {
    hide DeleteFromBlocks, Keep;
    var x := Erased(b[0]);
    assert PushErased(groups, [c]) == groups + [[Erased(c)]];
    HeadGoes(groups, Erased(c), x, StartsGroup(b[0]));
    assert HasNo(b[1..], c.id);
    DeleteThenPush(Push(groups + [[Erased(c)]], x, StartsGroup(b[0])), b[1..], c.id);
    var handed := b[0 := b[0].(logical := "or")];
    assert handed[1..] == b[1..] && Erased(handed[0]) == x;
  }

  lemma RemoveInside(groups: seq<seq<Condition>>, c: Condition, b: seq<Condition>)
    requires groups != [] && HasNo(b, c.id) && DeleteFromBlocks(groups, c.id) == groups &&
             Keep(groups[|groups| - 1], c.id) != []
    requires c.logical == "or" ==> b == []
    ensures DeleteFromBlocks(PushErased(PushErased(groups, [c]), b), c.id) == PushErased(groups, b)
  {
    hide DeleteFromBlocks, Keep;
    var pushed := Push(groups, Erased(c), StartsGroup(c));
    assert PushErased(groups, [c]) == pushed;
    DeletePushed(groups, Erased(c), StartsGroup(c));
    if c.logical != "or" {
      DeleteThenPush(pushed, b, c.id);
    }
  }

  // A condition pushed and deleted again.
  lemma DeletePushed(groups: seq<seq<Condition>>, x: Condition, starts: bool)
    requires groups != [] && DeleteFromBlocks(groups, x.id) == groups && Keep(groups[|groups| - 1], x.id) != []
    ensures var pushed := Push(groups, x, starts);
            DeleteFromBlocks(pushed, x.id) == groups && (!starts ==> Keep(pushed[|pushed| - 1], x.id) != [])
  {
    hide DeleteFromBlocks, Keep;
    var id, n := x.id, |groups| - 1;
    if starts {
      KeepOne(x, id);
      DeleteSnoc(groups, [x], id);
    } else {
      var before, last := groups[..n], groups[n];
      assert groups == before + [last];
      DeleteSnoc(before, last, id);
      KeepSnoc(last, x, id);
      assert Keep(last + [x], id) == Keep(last, id);
      DeleteSnoc(before, last + [x], id);
    }
  }

  // The block with the given condition gets another one right after it.
  function AddInBlock(block: seq<Condition>, id: string, x: Condition): seq<Condition> {
    if block == [] then []
    else
      var n := |block| - 1;
      AddInBlock(block[..n], id, x) + [block[n]] + if block[n].id == id then [x] else []
  }

  function AddInBlocks(groups: seq<seq<Condition>>, id: string, x: Condition): seq<seq<Condition>> {
    if groups == [] then []
    else
      var n := |groups| - 1;
      AddInBlocks(groups[..n], id, x) + [AddInBlock(groups[n], id, x)]
  }

  // The block with the given condition is cut after it, and the other one heads the rest.
  function CutBlock(block: seq<Condition>, id: string, x: Condition): (r: seq<seq<Condition>>)
    ensures r != []
  {
    if block == [] then [[]]
    else
      var n := |block| - 1;
      var before := CutBlock(block[..n], id, x);
      var longer := before[|before| - 1 := before[|before| - 1] + [block[n]]];
      longer + if block[n].id == id then [[x]] else []
  }

  function CutBlocks(groups: seq<seq<Condition>>, id: string, x: Condition): (r: seq<seq<Condition>>)
    ensures groups != [] ==> r != []
  {
    if groups == [] then []
    else
      var n := |groups| - 1;
      CutBlocks(groups[..n], id, x) + CutBlock(groups[n], id, x)
  }

  lemma AddSnoc(block: seq<Condition>, y: Condition, id: string, x: Condition)
    ensures AddInBlock(block + [y], id, x) == AddInBlock(block, id, x) + [y] + if y.id == id then [x] else []
  {
    assert (block + [y])[..|block|] == block;
  }

  lemma AddBlocksSnoc(groups: seq<seq<Condition>>, block: seq<Condition>, id: string, x: Condition)
    ensures AddInBlocks(groups + [block], id, x) == AddInBlocks(groups, id, x) + [AddInBlock(block, id, x)]
  {
    hide AddInBlock;
    assert (groups + [block])[..|groups|] == groups;
  }

  lemma CutSnoc(block: seq<Condition>, y: Condition, id: string, x: Condition)
    ensures var pieces := CutBlock(block, id, x);
            CutBlock(block + [y], id, x) == pieces[..|pieces| - 1] + [pieces[|pieces| - 1] + [y]] + if y.id == id then
              [[x]] else []
  {
    assert (block + [y])[..|block|] == block;
  }

  lemma CutBlocksSnoc(groups: seq<seq<Condition>>, block: seq<Condition>, id: string, x: Condition)
    ensures CutBlocks(groups + [block], id, x) == CutBlocks(groups, id, x) + CutBlock(block, id, x)
  {
    hide CutBlock;
    assert (groups + [block])[..|groups|] == groups;
  }

  lemma NoneYet(id: string, x: Condition)
    ensures AddInBlock([], id, x) == [] && AddInBlocks([], id, x) == [] && CutBlock([], id, x) == [[]] &&
            CutBlocks([], id, x) == []
  {
  }

  lemma AddPush(groups: seq<seq<Condition>>, y: Condition, starts: bool, id: string, x: Condition)
    requires groups != [] && y.id != id
    ensures AddInBlocks(Push(groups, y, starts), id, x) == Push(AddInBlocks(groups, id, x), y, starts)
  {
    hide AddInBlock, AddInBlocks;
    var n := |groups| - 1;
    var before, last := groups[..n], groups[n];
    assert groups == before + [last];
    AddBlocksSnoc(before, last, id, x);
    if starts {
      NoneYet(id, x);
      AddSnoc([], y, id, x);
      assert [] + [y] == [y];
      assert AddInBlock([y], id, x) == [y];
      AddBlocksSnoc(groups, [y], id, x);
    } else {
      AddSnoc(last, y, id, x);
      assert AddInBlock(last + [y], id, x) == AddInBlock(last, id, x) + [y];
      AddBlocksSnoc(before, last + [y], id, x);
    }
  }

  lemma CutPush(groups: seq<seq<Condition>>, y: Condition, starts: bool, id: string, x: Condition)
    requires groups != [] && y.id != id
    ensures CutBlocks(Push(groups, y, starts), id, x) == Push(CutBlocks(groups, id, x), y, starts)
  {
    hide CutBlock, CutBlocks;
    var n := |groups| - 1;
    var before, last := groups[..n], groups[n];
    assert groups == before + [last];
    CutBlocksSnoc(before, last, id, x);
    if starts {
      CutOne(y, id, x);
      CutBlocksSnoc(groups, [y], id, x);
    } else {
      CutSnoc(last, y, id, x);
      CutBlocksSnoc(before, last + [y], id, x);
      var pieces := CutBlock(last, id, x);
      assert pieces == pieces[..|pieces| - 1] + [pieces[|pieces| - 1]];
    }
  }

  lemma CutOne(y: Condition, id: string, x: Condition)
    requires y.id != id
    ensures CutBlock([y], id, x) == [[y]]
  {
    hide CutBlock;
    NoneYet(id, x);
    CutSnoc([], y, id, x);
    assert [] + [y] == [y];
  }

  lemma {:induction false} AddThenPush(groups: seq<seq<Condition>>, xs: seq<Condition>, id: string, x: Condition)
    requires groups != [] && HasNo(xs, id)
    ensures AddInBlocks(PushErased(groups, xs), id, x) == PushErased(AddInBlocks(groups, id, x), xs)
    decreases |xs|
  {
    hide AddInBlocks;
    if xs != [] {
      AddPush(groups, Erased(xs[0]), StartsGroup(xs[0]), id, x);
      assert HasNo(xs[1..], id);
      AddThenPush(Push(groups, Erased(xs[0]), StartsGroup(xs[0])), xs[1..], id, x);
    }
  }

  lemma {:induction false} CutThenPush(groups: seq<seq<Condition>>, xs: seq<Condition>, id: string, x: Condition)
    requires groups != [] && HasNo(xs, id)
    ensures CutBlocks(PushErased(groups, xs), id, x) == PushErased(CutBlocks(groups, id, x), xs)
    decreases |xs|
  {
    hide CutBlocks;
    if xs != [] {
      CutPush(groups, Erased(xs[0]), StartsGroup(xs[0]), id, x);
      assert HasNo(xs[1..], id);
      CutThenPush(Push(groups, Erased(xs[0]), StartsGroup(xs[0])), xs[1..], id, x);
    }
  }

  // Blocks without the condition stay as they are.
  lemma {:induction false} BlocksWithout(groups: seq<seq<Condition>>, id: string, x: Condition)
    requires forall k :: 0 <= k < |groups| ==> HasNo(groups[k], id)
    ensures AddInBlocks(groups, id, x) == groups && CutBlocks(groups, id, x) == groups
    decreases |groups|
  {
    hide AddInBlock, CutBlock, AddInBlocks, CutBlocks;
    NoneYet(id, x);
    if groups != [] {
      var n := |groups| - 1;
      BlocksWithout(groups[..n], id, x);
      BlockWithout(groups[n], id, x);
      assert groups == groups[..n] + [groups[n]];
      AddBlocksSnoc(groups[..n], groups[n], id, x);
      CutBlocksSnoc(groups[..n], groups[n], id, x);
    }
  }

  lemma {:induction false} BlockWithout(block: seq<Condition>, id: string, x: Condition)
    requires HasNo(block, id)
    ensures AddInBlock(block, id, x) == block && CutBlock(block, id, x) == [block]
    decreases |block|
  {
    hide AddInBlock, CutBlock;
    NoneYet(id, x);
    if block != [] {
      var n := |block| - 1;
      BlockWithout(block[..n], id, x);
      assert block == block[..n] + [block[n]];
      AddSnoc(block[..n], block[n], id, x);
      CutSnoc(block[..n], block[n], id, x);
    }
  }

  lemma {:induction false} PushedHaveNo(groups: seq<seq<Condition>>, a: seq<Condition>, id: string)
    requires HasNo(a, id) && forall k :: 0 <= k < |groups| ==> HasNo(groups[k], id)
    ensures forall k :: 0 <= k < |PushErased(groups, a)| ==> HasNo(PushErased(groups, a)[k], id)
    decreases |a|
  {
    if a != [] {
      assert HasNo(a[1..], id);
      PushedHaveNo(Push(groups, Erased(a[0]), StartsGroup(a[0])), a[1..], id);
    }
  }

  lemma LastBlock(before: seq<Condition>, c: Condition, x: Condition)
    requires HasNo(before, c.id)
    ensures AddInBlock(before + [c], c.id, x) == before + [c] + [x] &&
            CutBlock(before + [c], c.id, x) == [before + [c], [x]]
  {
    hide AddInBlock, CutBlock;
    BlockWithout(before, c.id, x);
    AddSnoc(before, c, c.id, x);
    CutSnoc(before, c, c.id, x);
  }

  // Where the condition is the last of the last block, adding appends and cutting opens
  // a new block.
  lemma AtTheEnd(groups: seq<seq<Condition>>, c: Condition, x: Condition)
    requires forall k :: 0 <= k < |groups| ==> HasNo(groups[k], c.id)
    ensures var pushed := Push(groups, Erased(c), StartsGroup(c));
            AddInBlocks(pushed, c.id, x) == Push(pushed, x, false) && CutBlocks(pushed, c.id, x) == pushed + [[x]]
  {
    hide HasNo, AddInBlock, CutBlock, AddInBlocks, CutBlocks;
    var y, starts := Erased(c), StartsGroup(c);
    var pushed := Push(groups, y, starts);
    var m := |pushed| - 1;
    var before := if groups == [] || starts then [] else groups[m];
    NoneBefore(c.id);
    assert [] + [y] == [y];
    assert pushed[m] == before + [y];
    LastBlock(before, y, x);
    BlocksWithout(pushed[..m], c.id, x);
    assert pushed == pushed[..m] + [pushed[m]];
    AddBlocksSnoc(pushed[..m], pushed[m], c.id, x);
    CutBlocksSnoc(pushed[..m], pushed[m], c.id, x);
  }

  lemma NoneBefore(id: string)
    ensures HasNo([], id)
  {
  }

  // Inserting with "and" puts the new condition into the block, right after the given
  // one; with "or" it cuts the block there and heads what follows.
  lemma InsertRefinesGrouping(conditions: seq<Condition>, k: nat, logical: string, freshId: string)
    requires k < |conditions| && HasNo(conditions[..k], conditions[k].id) &&
             HasNo(conditions[k + 1..], conditions[k].id)
    ensures var x, id := Blank(freshId, logical), conditions[k].id;
            Blocks(conditions[..k + 1] + [x] + conditions[k + 1..]) ==
            if logical == "or" then CutBlocks(Blocks(conditions), id, Erased(x))
              else AddInBlocks(Blocks(conditions), id, Erased(x))
  {
    hide AddInBlocks, CutBlocks, HasNo, PushErased, Push;
    var a, c, b, x := conditions[..k], conditions[k], conditions[k + 1..], Blank(freshId, logical);
    var before := Blocks(a);
    var with := Push(before, Erased(c), StartsGroup(c));
    assert conditions == a + ([c] + b) && conditions[..k + 1] + [x] + b == a + ([c, x] + b);
    PushErasedConcat([], a, [c] + b);
    PushErasedConcat([], a, [c, x] + b);
    assert [c, x] + b == [c] + ([x] + b);
    PushNext(before, c, b);
    PushNext(before, c, [x] + b);
    PushNext(with, x, b);
    PushedHaveNo([], a, c.id);
    AtTheEnd(before, c, Erased(x));
    Pushed(before, Erased(c), StartsGroup(c));
    Pushed(with, Erased(x), logical == "or");
    AddThenPush(with, b, c.id, Erased(x));
    CutThenPush(with, b, c.id, Erased(x));
  }

  lemma PushNext(groups: seq<seq<Condition>>, c: Condition, rest: seq<Condition>)
    ensures PushErased(groups, [c] + rest) == PushErased(Push(groups, Erased(c), StartsGroup(c)), rest)
  {
    assert ([c] + rest)[1..] == rest;
  }

  lemma Pushed(groups: seq<seq<Condition>>, x: Condition, starts: bool)
    ensures Push(groups, x, starts) != []
    ensures starts ==> Push(groups, x, starts) == groups + [[x]]
  {
  }

  predicate NeedsHeaderName(c: Condition) {
    c.field == "request_header"
  }

  predicate NeedsValue(c: Condition) {
    c.operator != "exists" && c.operator != "not_exists"
  }

  function ClauseToCondition(c: MatchClause, id: string): Condition {
    Condition(id, c.logical, c.field, c.operator, c.name, c.value)
  }

  function ConditionToClause(c: Condition): MatchClause {
    MatchClause(c.logical, c.field, c.operator, if NeedsHeaderName(c) then TrimSpace(c.name)
                else "", if NeedsValue(c) then TrimSpace(c.value) else "")
  }

  function ToConditions(clauses: seq<MatchClause>, ids: nat -> string): (r: seq<Condition>)
    ensures |r| == |clauses| && forall i :: 0 <= i < |r| ==> r[i] == ClauseToCondition(clauses[i], ids(i))
    decreases |clauses|
  {
    if clauses == [] then []
    else
      var n := |clauses| - 1;
      ToConditions(clauses[..n], ids) + [ClauseToCondition(clauses[n], ids(n))]
  }

  function ToClauses(conditions: seq<Condition>): (r: seq<MatchClause>)
    ensures |r| == |conditions| && forall i :: 0 <= i < |r| ==> r[i] == ConditionToClause(conditions[i])
  {
    if conditions == [] then [] else [ConditionToClause(conditions[0])] + ToClauses(conditions[1..])
  }

  // ids stands for the generator of condition ids.
  function RuleToForm(rule: Rule, ids: nat -> string): FormState {
    FormState(rule.name, rule.enabled, if rule.spec.any then [] else ToConditions(rule.spec.clauses, ids), rule.action)
  }

  function FormToRule(rule: Rule, state: FormState): Rule {
    rule.(name := if TrimSpace(state.name) == "" then "Untitled Rule" else TrimSpace(state.name),
          enabled := rule.isSystem || state.enabled,
          spec := if rule.isSystem then MatchSpec([], true) else MatchSpec(ToClauses(state.conditions), false),
          action := state.action.(optimistic := state.action.mode != "bypass" && state.action.optimistic))
  }

  // A condition is saved with its trimmed value, which a test for existence has none of,
  // and only a header test has a name.
  lemma ConditionSaved(c: Condition)
    ensures var clause := ConditionToClause(c);
            clause.logical == c.logical && clause.field == c.field && clause.operator == c.operator &&
            clause.name == (if c.field == "request_header" then TrimSpace(c.name) else "") &&
            clause.value == if c.operator in {"exists", "not_exists"} then "" else TrimSpace(c.value)
  {
  }

  // What is saved of a form besides its conditions: a trimmed name or a placeholder, a
  // system rule as enabled, an action that is never optimistic where nothing is cached,
  // and the rule's own id and kind.
  lemma FormSaved(rule: Rule, state: FormState)
    ensures var saved := FormToRule(rule, state);
            saved.id == rule.id && saved.isSystem == rule.isSystem &&
            saved.name == (if AllSpaces(state.name) then "Untitled Rule" else TrimSpace(state.name)) &&
            (saved.enabled <==> state.enabled || rule.isSystem) &&
            saved.action.mode == state.action.mode && saved.action.ttl == state.action.ttl &&
            saved.action.staleIfError == state.action.staleIfError &&
            (saved.action.optimistic <==> state.action.optimistic && state.action.mode != "bypass") &&
            saved.spec.any == rule.isSystem && (rule.isSystem ==> saved.spec.clauses == [])
  {
    hide AllSpaces;
    BlankIs(state.name);
  }

  // The form a rule is shown in.
  lemma FormShows(rule: Rule, ids: nat -> string, i: nat)
    ensures var form := RuleToForm(rule, ids);
            form.name == rule.name && form.enabled == rule.enabled && form.action == rule.action &&
            |form.conditions| == (if rule.spec.any then 0 else |rule.spec.clauses|) &&
            (!rule.spec.any && i < |rule.spec.clauses| ==>
               var c, clause := form.conditions[i], rule.spec.clauses[i];
               c.id == ids(i) && c.logical == clause.logical && c.field == clause.field &&
               c.operator == clause.operator && c.name == clause.name && c.value == clause.value)
  {
  }

  // The values the form would trim away are none: only paths and headers compare
  // untrimmed values.
  ghost predicate Trimmed(c: MatchClause) {
    (c.field == "request_header" ==> TrimSpace(c.name) == c.name) &&
    (c.field in {"uri_path", "request_header"} && c.operator !in {"exists", "not_exists"} ==>
       TrimSpace(c.value) == c.value)
  }

  // Through the form and back, a trimmed clause holds for the same requests.
  lemma ClauseRoundTrip(lib: Library, c: MatchClause, id: string, r: HttpRequest)
    requires Trimmed(c)
    ensures MatchesClause(lib, r, ConditionToClause(ClauseToCondition(c, id))) == MatchesClause(lib, r, c)
  {
    TrimTwice(c.value);
  }

  ghost predicate IsGlob(c: MatchClause) {
    c.field == "uri_path" && c.operator in {"matches_glob", "not_matches_glob"}
  }

  // A request that carries the trimmed value.
  ghost function Telling(c: MatchClause): HttpRequest {
    HttpRequest("", TrimSpace(c.value), "GET",
                map[CanonicalKey(TrimSpace(c.name)) := [if c.operator in {"exists", "not_exists"} then "x"
                                                        else TrimSpace(c.value)]])
  }

  lemma TrimShortens(s: string)
    ensures TrimSpace(s) == s || |TrimSpace(s)| < |s|
    ensures TrimSpace(s) != s ==> exists i :: 0 <= i < |s| && IsSpace(s[i])
  {
    TrimLeftSuffix(s);
    TrimRightKeeps(TrimLeft(s));
    if TrimSpace(s) != s && forall i :: 0 <= i < |s| ==> !IsSpace(s[i]) { TrimNoSpaces(s); }
  }

  lemma {:induction false} TrimLeftSuffix(s: string)
    ensures TrimLeft(s) == s || |TrimLeft(s)| < |s|
  {
    if s != "" && IsSpace(s[0]) { TrimLeftSuffix(s[1..]); }
  }

  lemma {:induction false} CapitalizedLength(s: string, upper: bool)
    ensures |Capitalized(s, upper)| == |s|
  {
    if s != "" { CapitalizedLength(s[1..], s[0] == '-'); }
  }

  // A name with spaces around it is looked up under another key than the trimmed one.
  lemma UntrimmedKey(name: string)
    requires TrimSpace(name) != name
    ensures CanonicalKey(name) != CanonicalKey(TrimSpace(name))
  {
    TrimShortens(name);
    CapitalizedLength(name, true);
    CapitalizedLength(TrimSpace(name), true);
  }

  lemma ShortContainsNot(s: string, part: string)
    ensures |part| > |s| ==> !Contains(s, part) && !StartsWith(s, part)
    ensures Contains(s, s) && StartsWith(s, s)
  {
    assert s <= s[0..];
  }

  lemma TellsPathApart(lib: Library, c: MatchClause)
    requires ValidClause(c) && c.field == "uri_path" && !IsGlob(c) && TrimSpace(c.value) != c.value
    ensures MatchesClause(lib, Telling(c), c.(name := "", value := TrimSpace(c.value))) != MatchesClause(lib,
                Telling(c), c)
  {
    hide TrimSpace, CanonicalKey, Contains, StartsWith;
    TrimShortens(c.value);
    ShortContainsNot(TrimSpace(c.value), c.value);
  }

  // What a header clause asks of the header's value.
  ghost predicate HeaderHolds(operator: string, value: string, wanted: string) {
    match operator
    case "exists" => value != ""
    case "not_exists" => value == ""
    case "equals" => value == wanted
    case "not_equals" => value != wanted
    case "contains" => Contains(value, wanted)
    case "not_contains" => !Contains(value, wanted)
    case _ => false
  }

  lemma MatchesHeader(lib: Library, r: HttpRequest, c: MatchClause)
    requires c.field == "request_header"
    ensures MatchesClause(lib, r, c) == HeaderHolds(c.operator, Get(r.header, CanonicalKey(c.name)), c.value)
  {
    hide CanonicalKey, Get, Contains;
  }

  // The trimmed name leads to the trimmed value, and the given one to nothing or to that
  // same value.
  lemma ToldValues(c: MatchClause)
    ensures var told := if c.operator in {"exists", "not_exists"} then "x" else TrimSpace(c.value);
            Get(Telling(c).header, CanonicalKey(TrimSpace(c.name))) == told &&
            Get(Telling(c).header, CanonicalKey(c.name)) == if TrimSpace(c.name) == c.name then told else ""
  {
    hide TrimSpace, CanonicalKey;
    if TrimSpace(c.name) != c.name { UntrimmedKey(c.name); }
  }

  // A value holds for itself as wanted, and is told apart from a longer one, as nothing is.
  lemma HeldApart(operator: string, value: string, found: string, wanted: string)
    requires operator in {"equals", "not_equals", "contains", "not_contains"}
    requires value != "" && wanted != "" &&
             (found == "" || (found == value && value != wanted && |value| < |wanted|))
    ensures HeaderHolds(operator, value, value) != HeaderHolds(operator, found, wanted)
  {
    hide Contains;
    ShortContainsNot(value, value);
    ShortContainsNot(found, wanted);
  }

  lemma TellsHeaderApart(lib: Library, c: MatchClause)
    requires ValidClause(c) && c.field == "request_header" && !Trimmed(c)
    ensures var back := c.(name := TrimSpace(c.name), value := if NeedsValue(ClauseToCondition(c, "")) then
                           TrimSpace(c.value) else "");
            MatchesClause(lib, Telling(c), back) != MatchesClause(lib, Telling(c), c)
  {
    hide TrimSpace, CanonicalKey, MatchesClause, Telling, Get, Contains;
    var back := c.(name := TrimSpace(c.name), value := if NeedsValue(ClauseToCondition(c, "")) then
                      TrimSpace(c.value) else "");
    ToldValues(c);
    MatchesHeader(lib, Telling(c), c);
    MatchesHeader(lib, Telling(c), back);
    if c.operator !in {"exists", "not_exists"} {
      TrimShortens(c.value);
      HeldApart(c.operator, TrimSpace(c.value), Get(Telling(c).header, CanonicalKey(c.name)), c.value);
    }
  }

  // An untrimmed clause that is no glob comes back as one that some request tells apart.
  lemma TellsApart(lib: Library, c: MatchClause, id: string)
    requires ValidClause(c) && !IsGlob(c) && !Trimmed(c)
    ensures MatchesClause(lib, Telling(c), ConditionToClause(ClauseToCondition(c, id))) != MatchesClause(lib,
                Telling(c), c)
  {
    hide MatchesClause, TrimSpace, ValidClause;
    if c.field == "uri_path" { TellsPathApart(lib, c); } else { TellsHeaderApart(lib, c); }
  }

  // A valid clause that is no glob comes back meaning the same exactly if it is trimmed.
  lemma ClauseRoundTripIff(lib: Library, c: MatchClause, id: string)
    requires ValidClause(c) && !IsGlob(c)
    ensures var back := ConditionToClause(ClauseToCondition(c, id));
            (forall r :: MatchesClause(lib, r, back) == MatchesClause(lib, r, c)) <==> Trimmed(c)
  {
    hide MatchesClause, ConditionToClause, ClauseToCondition, Trimmed, ValidClause;
    if Trimmed(c) {
      forall r
        ensures MatchesClause(lib, r, ConditionToClause(ClauseToCondition(c, id))) == MatchesClause(lib, r, c)
      {
        ClauseRoundTrip(lib, c, id, r);
      }
    } else {
      TellsApart(lib, c, id);
    }
  }

  // Lists that agree on where blocks start and on what holds agree on the whole.
  lemma {:induction false} SameTruth<S,
      T>(xs: seq<S>, ys: seq<T>, starts: S -> bool, starts': T -> bool, holds: S -> bool, holds': T -> bool)
    requires |xs| == |ys| && forall i :: 0 <= i < |xs| ==>
               starts(xs[i]) == starts'(ys[i]) && holds(xs[i]) == holds'(ys[i])
    ensures AnyBlockTrue(Groups(xs, starts), holds) <==> AnyBlockTrue(Groups(ys, starts'), holds')
  {
    hide Groups, AnyBlockTrue, AllTrue, Push;
    if xs == [] {
      EmptyIsFalse(xs, starts, holds);
      EmptyIsFalse(ys, starts', holds');
    } else {
      SamePrefixTruth(xs, ys, starts, starts', holds, holds', |xs|);
      assert xs[..|xs|] == xs && ys[..|ys|] == ys;
      LastOrEarlier(Groups(xs, starts), holds);
      LastOrEarlier(Groups(ys, starts'), holds');
    }
  }

  lemma EmptyIsFalse<T>(xs: seq<T>, starts: T -> bool, holds: T -> bool)
    requires xs == []
    ensures !AnyBlockTrue(Groups(xs, starts), holds)
  {
  }

  lemma {:induction false} SamePrefixTruth<S,
      T>(xs: seq<S>, ys: seq<T>, starts: S -> bool, starts': T -> bool, holds: S -> bool, holds': T -> bool, n: nat)
    requires 1 <= n <= |xs| == |ys| && forall i :: 0 <= i < |xs| ==>
               starts(xs[i]) == starts'(ys[i]) && holds(xs[i]) == holds'(ys[i])
    ensures var g, g' := Groups(xs[..n], starts), Groups(ys[..n], starts');
            g != [] && g' != [] && (AllTrue(g[|g| - 1], holds) <==> AllTrue(g'[|g'| - 1], holds')) &&
            (AnyBlockTrue(g[..|g| - 1], holds) <==> AnyBlockTrue(g'[..|g'| - 1], holds'))
    decreases n
  {
    hide Groups, AnyBlockTrue, AllTrue, Push;
    if n == 1 {
      FirstBlock(xs, starts, holds);
      FirstBlock(ys, starts', holds');
    } else {
      SamePrefixTruth(xs, ys, starts, starts', holds, holds', n - 1);
      GroupsSnoc(xs, n - 1, starts);
      GroupsSnoc(ys, n - 1, starts');
      PushTruth(Groups(xs[..n - 1], starts), xs[n - 1], starts(xs[n - 1]), holds);
      PushTruth(Groups(ys[..n - 1], starts'), ys[n - 1], starts'(ys[n - 1]), holds');
    }
  }

  // What the form shows as blocks is what the runtime evaluates as blocks.
  lemma FormBlocksAreRuleBlocks(lib: Library, clauses: seq<MatchClause>, ids: nat -> string, holds: Condition -> bool,
                                r: HttpRequest)
    requires forall i :: 0 <= i < |clauses| ==>
               holds(ClauseToCondition(clauses[i], ids(i))) == MatchesClause(lib, r, clauses[i])
    ensures AnyBlockTrue(Groups(ToConditions(clauses, ids), StartsGroup), holds) <==>
              RuleMatches(lib, MatchSpec(clauses, false), r)
  {
    hide Groups, AnyBlockTrue, MatchesClause, ToConditions;
    SameTruth(ToConditions(clauses, ids), clauses, StartsGroup, OpensBlock, holds, ClauseHolds(lib, r));
  }

  // Saving a rule unchanged from the form keeps which requests it matches, for trimmed
  // values, when exactly the system rules catch all.
  lemma RuleRoundTrip(lib: Library, rule: Rule, ids: nat -> string, r: HttpRequest)
    requires (rule.isSystem <==> rule.spec.any) && forall i :: 0 <= i < |rule.spec.clauses| ==>
               Trimmed(rule.spec.clauses[i])
    ensures RuleMatches(lib, FormToRule(rule, RuleToForm(rule, ids)).spec, r) <==> RuleMatches(lib, rule.spec, r)
  {
    hide Groups, AnyBlockTrue, MatchesClause, ToConditions, ToClauses, ClauseToCondition, ConditionToClause, Trimmed;
    if !rule.spec.any {
      var clauses := rule.spec.clauses;
      var back := ToClauses(ToConditions(clauses, ids));
      forall i | 0 <= i < |clauses|
        ensures OpensBlock(back[i]) == OpensBlock(clauses[i]) &&
                MatchesClause(lib, r, back[i]) == MatchesClause(lib, r, clauses[i])
      {
        ClauseRoundTrip(lib, clauses[i], ids(i), r);
        SameLogical(clauses[i], ids(i));
      }
      SameTruth(back, clauses, OpensBlock, OpensBlock, ClauseHolds(lib, r), ClauseHolds(lib, r));
    }
  }

  lemma SameLogical(c: MatchClause, id: string)
    ensures ConditionToClause(ClauseToCondition(c, id)).logical == c.logical
  {
  }

  // The rule that comes back matches the same requests.
  ghost predicate ComesBack(lib: Library, rule: Rule, ids: nat -> string) {
    forall r :: RuleMatches(lib, FormToRule(rule, RuleToForm(rule, ids)).spec, r) <==> RuleMatches(lib, rule.spec, r)
  }

  // A system rule comes back catching all, a catch-all that is none catching nothing, and
  // any other rule by its clauses: with those trimmed, a rule comes back as it was exactly
  // if it is a system rule that matches everything, or no system rule and no catch-all.
  lemma RuleRoundTripIff(lib: Library, rule: Rule, ids: nat -> string)
    requires !rule.isSystem && !rule.spec.any ==> forall i :: 0 <= i < |rule.spec.clauses| ==>
               Trimmed(rule.spec.clauses[i])
    ensures ComesBack(lib, rule, ids) <==> if rule.isSystem then forall r :: RuleMatches(lib, rule.spec, r)
              else !rule.spec.any
    ensures rule.isSystem ==> forall r :: RuleMatches(lib, FormToRule(rule, RuleToForm(rule, ids)).spec, r)
    ensures !rule.isSystem && rule.spec.any ==> forall r ::
              !RuleMatches(lib, FormToRule(rule, RuleToForm(rule, ids)).spec, r)
  {
    hide Groups, AnyBlockTrue, MatchesClause, ToConditions, Trimmed;
    var back := FormToRule(rule, RuleToForm(rule, ids)).spec;
    if !rule.isSystem {
      if rule.spec.any {
        forall r
          ensures !RuleMatches(lib, back, r) && RuleMatches(lib, rule.spec, r)
        {
          NoBlocks(back.clauses, ClauseHolds(lib, r));
        }
        var r := HttpRequest("", "", "", map[]);
        assert RuleMatches(lib, rule.spec, r) && !RuleMatches(lib, back, r);
      } else {
        forall r
          ensures RuleMatches(lib, back, r) <==> RuleMatches(lib, rule.spec, r)
        {
          RuleRoundTrip(lib, rule, ids, r);
        }
      }
    }
  }

  // The form as the drawer opens it: with a blank condition where there would be none,
  // unless the rule is a system rule.
  function OpenedForm(rule: Rule, ids: nat -> string, freshId: string): FormState {
    var state := RuleToForm(rule, ids);
    if !rule.isSystem && state.conditions == [] then state.(conditions := [Blank(freshId, "")]) else state
  }

  // So a valid rule is opened as it is, and one without conditions that is no system rule
  // cannot be saved until the blank condition is filled in.
  lemma OpenedRules(lib: Library, rule: Rule, isLast: bool, ids: nat -> string, freshId: string)
    ensures ValidRule(lib, rule, isLast) ==> OpenedForm(rule, ids, freshId) == RuleToForm(rule, ids)
    ensures !rule.isSystem && (rule.spec.any || rule.spec.clauses == []) ==>
              !ValidRule(lib, FormToRule(rule, OpenedForm(rule, ids, freshId)), isLast)
  {
    if !rule.isSystem && (rule.spec.any || rule.spec.clauses == []) {
      var back := FormToRule(rule, OpenedForm(rule, ids, freshId));
      assert TrimSpace("") == "";
      assert back.spec.clauses[0] == ConditionToClause(Blank(freshId, ""));
    }
  }

  // A rule of one clause that is no glob comes back as it was exactly if that is trimmed.
  lemma OneClauseRuleIff(lib: Library, rule: Rule, ids: nat -> string)
    requires !rule.isSystem && !rule.spec.any && |rule.spec.clauses| == 1
    requires ValidClause(rule.spec.clauses[0]) && !IsGlob(rule.spec.clauses[0])
    ensures ComesBack(lib, rule, ids) <==> Trimmed(rule.spec.clauses[0])
  {
    hide MatchesClause, ToConditions, ConditionToClause, ClauseToCondition, Trimmed, ValidClause, Groups, AnyBlockTrue;
    var c, back := rule.spec.clauses[0], FormToRule(rule, RuleToForm(rule, ids)).spec;
    var c' := ConditionToClause(ClauseToCondition(c, ids(0)));
    assert rule.spec.clauses == [c] && back.clauses == [c'];
    ClauseRoundTripIff(lib, c, ids(0));
    forall r
      ensures RuleMatches(lib, rule.spec, r) <==> MatchesClause(lib, r, c)
      ensures RuleMatches(lib, back, r) <==> MatchesClause(lib, r, c')
    {
      OneClauseBlock(lib, c, r);
      OneClauseBlock(lib, c', r);
    }
  }

  lemma OneClauseBlock(lib: Library, c: MatchClause, r: HttpRequest)
    ensures AnyBlockTrue(Groups([c], OpensBlock), ClauseHolds(lib, r)) <==> MatchesClause(lib, r, c)
  {
    hide MatchesClause;
    FirstBlock([c], OpensBlock, ClauseHolds(lib, r));
    assert [c][..1] == [c];
    LastOrEarlier(Groups([c], OpensBlock), ClauseHolds(lib, r));
  }
}
