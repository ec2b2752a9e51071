/** Balanced allocation: a block holds every variant with every panel once, in an order
    drawn at random. */
module Allocation {
  import opened Common
  import opened Studies

  datatype Pair = Pair(variant: Id, panel: nat)

  // -------------------------------------------------------------------- shuffle

  /** Position i draws a position up to i. */
  ghost predicate InRange(draws: seq<nat>)
  {
    forall i :: 0 <= i < |draws| ==> draws[i] <= i
  }

  function Swapped<T>(s: seq<T>, i: nat, j: nat): seq<T>
    requires i < |s| && j < |s|
  {
    s[i := s[j]][j := s[i]]
  }

  /** From the last position to the first, each is swapped with the one it draws. */
  function Shuffled<T>(s: seq<T>, draws: seq<nat>): (t: seq<T>)
    requires |s| <= |draws| && InRange(draws)
    ensures |t| == |s|
    decreases |s|
  {
    if |s| <= 1 then s
    else
      var n := |s| - 1;
      var u := Swapped(s, n, draws[n]);
      Shuffled(u[..n], draws) + [u[n]]
  }

  lemma {:induction false} SwappedIsPermutation<T>(s: seq<T>, i: nat, j: nat)
    requires i < |s| && j < |s|
    ensures multiset(Swapped(s, i, j)) == multiset(s)
  {}

  lemma {:induction false} SwapInPrefix<T>(all: seq<T>, i: nat, j: nat)
    requires j <= i < |all|
    ensures var after, u := Swapped(all, i, j), Swapped(all[..i + 1], i, j);
            after[..i] == u[..i] && after[i..] == [u[i]] + all[i + 1..]
  {}

  /** The positions up to i are still to be shuffled. */
  ghost predicate Pending<T(!new)>(all: seq<T>, i: nat, draws: seq<nat>, goal: seq<T>)
    requires i < |all| <= |draws| && InRange(draws)
  {
    Shuffled(all[..i + 1], draws) + all[i + 1..] == goal
  }

  lemma {:induction false} PendingEnds<T(!new)>(all: seq<T>, draws: seq<nat>, goal: seq<T>)
    requires 0 < |all| <= |draws| && InRange(draws)
    ensures goal == Shuffled(all, draws) ==> Pending(all, |all| - 1, draws, goal)
    ensures Pending(all, 0, draws, goal) ==> all == goal
  {
    assert all[..|all|] == all && all[|all|..] == [];
    assert all[..1] + all[1..] == all;
  }

  lemma {:induction false} PendingStep<T(!new)>(all: seq<T>, i: nat, draws: seq<nat>, goal: seq<T>)
    requires 0 < i < |all| <= |draws| && InRange(draws) && Pending(all, i, draws, goal)
    ensures Pending(Swapped(all, i, draws[i]), i - 1, draws, goal)
  {
    SwapInPrefix(all, i, draws[i]);
    var u := Swapped(all[..i + 1], i, draws[i]);
    assert Shuffled(all[..i + 1], draws) == Shuffled(u[..i], draws) + [u[i]];
    assert Shuffled(u[..i], draws) + [u[i]] + all[i + 1..] == Shuffled(u[..i], draws) + ([u[i]] + all[i + 1..]);
  }

  method Swap<T>(items: array<T>, i: nat, j: nat)
    requires i < items.Length && j < items.Length
    modifies items
    ensures items[..] == Swapped(old(items[..]), i, j)
  {
    items[i], items[j] := items[j], items[i];
  }

  /** `failing` is the position whose draw the random source fails to give. */
  method Shuffle<T(!new)>(items: array<T>, draws: seq<nat>, failing: nat) returns (ok: bool)
    requires InRange(draws) && |draws| == items.Length
    modifies items
    ensures ok <==> !(1 <= failing < items.Length)
    ensures ok ==> items[..] == Shuffled(old(items[..]), draws)
  {
    if items.Length == 0 { return true; }
    ghost var all, goal := items[..], Shuffled(items[..], draws);
    var i := items.Length - 1;
    PendingEnds(all, draws, goal);
    while i > 0
      invariant 0 <= i < items.Length == |all|
      invariant 1 <= failing < items.Length ==> failing <= i
      invariant items[..] == all && Pending(all, i, draws, goal)
    {
      if i == failing { return false; }
      PendingStep(all, i, draws, goal);
      Swap(items, i, draws[i]);
      all := Swapped(all, i, draws[i]);
      i := i - 1;
    }
    PendingEnds(all, draws, goal);
    ok := true;
  }

  lemma {:induction false} ShuffledIsPermutation<T>(s: seq<T>, draws: seq<nat>)
    requires |s| <= |draws| && InRange(draws)
    ensures multiset(Shuffled(s, draws)) == multiset(s)
    decreases |s|
  {
    if |s| > 1 {
      var n := |s| - 1;
      var u := Swapped(s, n, draws[n]);
      SwappedIsPermutation(s, n, draws[n]);
      ShuffledIsPermutation(u[..n], draws);
      assert u == u[..n] + [u[n]];
    }
  }

  /** Any order of the items can be drawn: the shuffle reaches every permutation. */
  lemma {:induction false} EveryOrderIsDrawn<T>(s: seq<T>, t: seq<T>) returns (draws: seq<nat>)
    requires multiset(s) == multiset(t)
    ensures |draws| == |s| && InRange(draws) && Shuffled(s, draws) == t
    decreases |s|
  {
    SameItems(s, t);
    if |s| <= 1 {
      draws := seq(|s|, i => 0);
    } else {
      var n := |s| - 1;
      var j :| 0 <= j < |s| && s[j] == t[n];
      var u := Swapped(s, n, j);
      SwappedIsPermutation(s, n, j);
      SamePrefixItems(t, u);
      var rest := EveryOrderIsDrawn(u[..n], t[..n]);
      draws := rest + [j];
      DrawsBeyondDoNotMatter(u[..n], rest, draws);
      ShuffledEnds(s, t, draws);
    }
  }

  lemma {:induction false} SameItems<T>(s: seq<T>, t: seq<T>)
    requires multiset(s) == multiset(t)
    ensures |s| == |t| && (forall i :: 0 <= i < |t| ==> t[i] in s) && (|s| <= 1 ==> s == t)
  {
    assert |s| == |multiset(s)| && |t| == |multiset(t)|;
    forall i | 0 <= i < |t| ensures t[i] in s { assert t[i] in multiset(s); }
  }

  lemma {:induction false} ShuffledEnds<T>(s: seq<T>, t: seq<T>, draws: seq<nat>)
    requires 1 < |s| == |t| <= |draws| && InRange(draws)
    requires var n := |s| - 1; var u := Swapped(s, n, draws[n]); Shuffled(u[..n], draws) == t[..n] && u[n] == t[n]
    ensures Shuffled(s, draws) == t
  {
    assert t == t[..|t| - 1] + [t[|t| - 1]];
  }

  lemma {:induction false} SamePrefixItems<T>(t: seq<T>, u: seq<T>)
    requires |u| == |t| > 0 && multiset(u) == multiset(t) && u[|u| - 1] == t[|t| - 1]
    ensures multiset(u[..|u| - 1]) == multiset(t[..|t| - 1])
  {
    AllButLast(u);
    AllButLast(t);
  }

  lemma {:induction false} AllButLast<T>(s: seq<T>)
    requires s != []
    ensures multiset(s[..|s| - 1]) == multiset(s) - multiset{Last(s)}
  {
    assert s == s[..|s| - 1] + [Last(s)];
  }

  lemma {:induction false} DrawsBeyondDoNotMatter<T>(s: seq<T>, draws: seq<nat>, more: seq<nat>)
    requires |s| <= |draws| && draws <= more && InRange(draws) && InRange(more)
    ensures Shuffled(s, draws) == Shuffled(s, more)
    decreases |s|
  {
    if |s| > 1 {
      var n := |s| - 1;
      DrawsBeyondDoNotMatter(Swapped(s, n, draws[n])[..n], draws, more);
    }
  }

  // ----------------------------------------------------------------------- blocks

  function PairsWith(variant: Id, panels: nat): seq<Pair>
  {
    if panels == 0 then [] else PairsWith(variant, panels - 1) + [Pair(variant, panels - 1)]
  }

  /** Every variant with every panel. */
  function AllPairs(variants: seq<Variant>, panels: nat): seq<Pair>
  {
    if variants == [] then [] else AllPairs(variants[..|variants| - 1], panels) + PairsWith(Last(variants).id, panels)
  }

  ghost predicate InDesign(c: Config, pair: Pair)
  {
    pair.panel < |c.panels| && exists i :: 0 <= i < |c.variants| && c.variants[i].id == pair.variant
  }

  ghost predicate DistinctVariants(variants: seq<Variant>)
  {
    forall i, j :: 0 <= i < j < |variants| ==> variants[i].id != variants[j].id
  }

  lemma {:induction false} PairsOnce(variant: Id, panels: nat, pair: Pair)
    ensures multiset(PairsWith(variant, panels))[pair] == if pair.variant == variant && pair.panel < panels then 1
            else 0
  {
    if panels > 0 { PairsOnce(variant, panels - 1, pair); }
  }

  lemma {:induction false} AllPairsOnce(variants: seq<Variant>, panels: nat, pair: Pair)
    requires DistinctVariants(variants)
    ensures multiset(AllPairs(variants, panels))[pair] ==
            if pair.panel < panels && exists i :: 0 <= i < |variants| && variants[i].id == pair.variant then 1 else 0
  {
    if variants != [] {
      var init := variants[..|variants| - 1];
      assert forall i :: 0 <= i < |init| ==> init[i] == variants[i];
      AllPairsOnce(init, panels, pair);
      PairsOnce(Last(variants).id, panels, pair);
      if exists i :: 0 <= i < |init| && init[i].id == pair.variant {
        var i :| 0 <= i < |init| && init[i].id == pair.variant;
        assert variants[i].id == pair.variant && variants[|variants| - 1].id != pair.variant;
      }
      if Last(variants).id == pair.variant { assert variants[|variants| - 1].id == pair.variant; }
    }
  }

  method AllocateV1(c: Config, draws: seq<nat>, failing: nat) returns (block: Option<seq<Pair>>)
    requires InRange(draws) && |draws| == |AllPairs(c.variants, |c.panels|)|
    ensures block.Some? <==> !(1 <= failing < |draws|)
    ensures block.Some? ==>
              block.value == Shuffled(AllPairs(c.variants, |c.panels|), draws)
              && multiset(block.value) == multiset(AllPairs(c.variants, |c.panels|))
  {
    var pairs: seq<Pair> := [];
    for i := 0 to |c.variants|
      invariant pairs == AllPairs(c.variants[..i], |c.panels|)
    {
      ghost var before := pairs;
      for panel := 0 to |c.panels|
        invariant pairs == before + PairsWith(c.variants[i].id, panel)
      {
        pairs := pairs + [Pair(c.variants[i].id, panel)];
      }
      assert c.variants[..i + 1][..i] == c.variants[..i] && Last(c.variants[..i + 1]) == c.variants[i];
    }
    assert c.variants[..|c.variants|] == c.variants;
    var items := new Pair[|pairs|](i requires 0 <= i < |pairs| => pairs[i]);
    assert items[..] == pairs;
    var ok := Shuffle(items, draws, failing);
    if !ok { return None; }
    ShuffledIsPermutation(pairs, draws);
    block := Some(items[..]);
  }
}
