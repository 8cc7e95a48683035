/** Lists of conditions joined by "and" and "or" as blocks: a block starts at every
    "or", and holds when all its conditions do. */
module Grouping {
  // One more element, in a block of its own or at the end of the last block.
  function Push<T>(groups: seq<seq<T>>, x: T, starts: bool): seq<seq<T>> {
    if groups == [] || starts then groups + [[x]]
    else groups[..|groups| - 1] + [groups[|groups| - 1] + [x]]
  }

  function PushAll<T>(groups: seq<seq<T>>, xs: seq<T>, starts: T -> bool): seq<seq<T>>
    decreases |xs|
  {
    if xs == [] then groups else PushAll(Push(groups, xs[0], starts(xs[0])), xs[1..], starts)
  }

  function Groups<T>(xs: seq<T>, starts: T -> bool): seq<seq<T>> {
    PushAll([], xs, starts)
  }

  lemma {:induction false} PushAllConcat<T>(groups: seq<seq<T>>, a: seq<T>, b: seq<T>, starts: T -> bool)
    ensures PushAll(groups, a + b, starts) == PushAll(PushAll(groups, a, starts), b, starts)
    decreases |a|
  {
    if a == [] {
      assert a + b == b;
    } else {
      assert (a + b)[1..] == a[1..] + b;
      PushAllConcat(Push(groups, a[0], starts(a[0])), a[1..], b, starts);
    }
  }

  lemma GroupsSnoc<T>(xs: seq<T>, n: nat, starts: T -> bool)
    requires n < |xs|
    ensures Groups(xs[..n + 1], starts) == Push(Groups(xs[..n], starts), xs[n], starts(xs[n]))
  {
    assert xs[..n + 1] == xs[..n] + [xs[n]];
    PushAllConcat([], xs[..n], [xs[n]], starts);
    assert PushAll(Push(Groups(xs[..n], starts), xs[n], starts(xs[n])), [], starts) ==
             Push(Groups(xs[..n], starts), xs[n], starts(xs[n]));
  }

  function Flatten<T>(groups: seq<seq<T>>): seq<T> {
    if groups == [] then [] else Flatten(groups[..|groups| - 1]) + groups[|groups| - 1]
  }

  // Non-empty blocks, each but the first opened by a starter, and no starter inside.
  ghost predicate WellGrouped<T>(groups: seq<seq<T>>, starts: T -> bool) {
    forall k :: 0 <= k < |groups| ==>
      groups[k] != [] && (k > 0 ==> starts(groups[k][0])) && forall i :: 1 <= i < |groups[k]| ==> !starts(groups[k][i])
  }

  lemma PushGroups<T>(groups: seq<seq<T>>, x: T, starts: T -> bool)
    requires WellGrouped(groups, starts)
    ensures WellGrouped(Push(groups, x, starts(x)), starts)
    ensures Flatten(Push(groups, x, starts(x))) == Flatten(groups) + [x]
  {
    var pushed := Push(groups, x, starts(x));
    var last := |pushed| - 1;
    assert pushed == pushed[..last] + [pushed[last]];
    if groups == [] || starts(x) {
      assert pushed[..last] == groups;
    } else {
      assert pushed[..last] == groups[..last];
      assert groups == groups[..last] + [groups[last]];
    }
  }

  // Grouping keeps the conditions in order and cuts exactly before the starters.
  lemma {:induction false} GroupsMeaning<T>(xs: seq<T>, starts: T -> bool)
    ensures WellGrouped(Groups(xs, starts), starts) && Flatten(Groups(xs, starts)) == xs
    decreases |xs|
  {
    if xs != [] {
      var n := |xs| - 1;
      GroupsMeaning(xs[..n], starts);
      assert xs[..n + 1] == xs == xs[..n] + [xs[n]];
      GroupsSnoc(xs, n, starts);
      PushGroups(Groups(xs[..n], starts), xs[n], starts);
    }
  }

  ghost predicate AllTrue<T>(block: seq<T>, holds: T -> bool) {
    forall i :: 0 <= i < |block| ==> holds(block[i])
  }

  ghost predicate AnyBlockTrue<T>(groups: seq<seq<T>>, holds: T -> bool) {
    exists k :: 0 <= k < |groups| && AllTrue(groups[k], holds)
  }

  // The last block's truth and that of the blocks before it, after one more element.
  lemma PushTruth<T>(groups: seq<seq<T>>, x: T, starts: bool, holds: T -> bool)
    requires groups != []
    ensures var n, pushed := |groups| - 1, Push(groups, x, starts);
            pushed != [] && var m := |pushed| - 1;
            (AllTrue(pushed[m], holds) <==> if starts then holds(x) else AllTrue(groups[n], holds) && holds(x)) &&
            (AnyBlockTrue(pushed[..m], holds) <==>
             if starts then AnyBlockTrue(groups[..n], holds) ||
                            AllTrue(groups[n], holds) else AnyBlockTrue(groups[..n], holds))
  {
    var n, pushed := |groups| - 1, Push(groups, x, starts);
    if starts {
      assert pushed[..n + 1] == groups;
      LastOrEarlier(groups, holds);
      assert pushed[n + 1] == [x] && pushed[n + 1][0] == x;
    } else {
      assert pushed[..n] == groups[..n];
      AllTrueSnoc(groups[n], x, holds);
    }
  }

  lemma AllTrueSnoc<T>(block: seq<T>, x: T, holds: T -> bool)
    ensures AllTrue(block + [x], holds) <==> AllTrue(block, holds) && holds(x)
  {
    var longer := block + [x];
    assert longer[|block|] == x && forall i :: 0 <= i < |block| ==> longer[i] == block[i];
  }

  lemma LastOrEarlier<T>(groups: seq<seq<T>>, holds: T -> bool)
    requires groups != []
    ensures AnyBlockTrue(groups, holds) <==> AnyBlockTrue(groups[..|groups| - 1], holds) ||
                                             AllTrue(groups[|groups| - 1], holds)
  {
    var n := |groups| - 1;
    if AnyBlockTrue(groups[..n], holds) {
      var k :| 0 <= k < n && AllTrue(groups[..n][k], holds);
      assert AllTrue(groups[k], holds);
    }
    if AnyBlockTrue(groups, holds) && !AllTrue(groups[n], holds) {
      var k :| 0 <= k < |groups| && AllTrue(groups[k], holds);
      assert groups[..n][k] == groups[k];
    }
  }

  lemma FirstBlock<T>(xs: seq<T>, starts: T -> bool, holds: T -> bool)
    requires xs != []
    ensures var groups := Groups(xs[..1], starts);
            groups != [] && (AllTrue(groups[|groups| - 1], holds) <==> holds(xs[0])) &&
            !AnyBlockTrue(groups[..|groups| - 1], holds)
  {
    GroupsSnoc(xs, 0, starts);
    assert Groups(xs[..0], starts) == [];
    var groups := Groups(xs[..1], starts);
    assert groups == [[xs[0]]];
    assert groups[0][0] == xs[0];
  }
}
