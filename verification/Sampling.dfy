/**
  Sample capping (scripts/live_e2e/bfcl_v4.py): spread a number of cases over
  categories, then pick that many ids evenly from each.
 */
module Sampling {
  import opened Foundation

  // ---------- spreading ----------

  function Min(a: nat, b: nat): nat {
    if a < b then a else b
  }

  function Sum(s: seq<nat>): nat {
    if s == [] then 0 else s[0] + Sum(s[1..])
  }

  /** Each count is its level, or all there is: one more for the first `k`. */
  ghost predicate Level(lens: seq<nat>, counts: seq<nat>, level: nat, k: nat) {
    && |counts| == |lens| && k <= |lens|
    && forall i :: 0 <= i < |lens| ==> counts[i] == Min(lens[i], if i < k then level + 1 else level)
  }

  lemma {:induction false} SumUpdate(s: seq<nat>, i: nat, x: nat)
    requires i < |s|
    ensures Sum(s[i := x]) == Sum(s) - s[i] + x
  {
    if i > 0 {
      SumUpdate(s[1..], i - 1, x);
      assert s[i := x][1..] == s[1..][i - 1 := x];
    } else {
      assert s[i := x][1..] == s[1..];
    }
  }

  lemma {:induction false} SumBound(a: seq<nat>, b: seq<nat>)
    requires |a| == |b| && forall i :: 0 <= i < |a| ==> a[i] <= b[i]
    ensures Sum(a) <= Sum(b)
    ensures Sum(a) == Sum(b) ==> a == b
  {
    if a != [] {
      SumBound(a[1..], b[1..]);
      assert a == [a[0]] + a[1..] && b == [b[0]] + b[1..];
    }
  }

  lemma {:induction false} SumOfSame(s: seq<nat>, x: nat)
    requires forall i :: 0 <= i < |s| ==> s[i] <= x
    ensures Sum(s) <= |s| * x
  {
    if s != [] {
      SumOfSame(s[1..], x);
      assert |s| * x == x + (|s| - 1) * x;
    }
  }

  /** The counts each category starts with. */
  function Floors(lens: seq<nat>, floor: nat): (counts: seq<nat>)
    ensures |counts| == |lens|
  {
    seq(|lens|, i requires 0 <= i < |lens| => Min(floor, lens[i]))
  }

  /** One round: one more to each category that has one, while any are left. */
  method HandOut(lens: seq<nat>, start: seq<nat>, left: nat, ghost level: nat) returns (counts: seq<nat>,
                 remaining: nat, ghost k: nat)
    requires Level(lens, start, level, 0) && left > 0
    ensures Level(lens, counts, level, k) && Sum(counts) + remaining == Sum(start) + left && remaining <= left
    ensures remaining > 0 ==> k == |lens|
    ensures remaining == left ==> counts == lens
  {
    counts, remaining, k := start, left, 0;
    var i := 0;
    while i < |lens| && remaining > 0
      invariant i == k <= |lens| && Level(lens, counts, level, k)
      invariant Sum(counts) + remaining == Sum(start) + left && remaining <= left
      invariant remaining == left ==> forall j :: 0 <= j < i ==> counts[j] == lens[j]
    {
      if counts[i] < lens[i] {
        SumUpdate(counts, i, counts[i] + 1);
        counts := counts[i := counts[i] + 1];
        remaining := remaining - 1;
      }
      i := i + 1;
      k := i;
    }
  }

  lemma RoundUp(lens: seq<nat>, counts: seq<nat>, level: nat)
    requires Level(lens, counts, level, |lens|)
    ensures Level(lens, counts, level + 1, 0)
  {
  }

  lemma WithinSizes(lens: seq<nat>, counts: seq<nat>, level: nat, k: nat)
    requires Level(lens, counts, level, k)
    ensures Sum(counts) <= Sum(lens)
  {
    SumBound(counts, lens);
  }

  /**
    Hand out what is left one at a time, round after round, to categories that
    have more. All of `cases` is handed out unless there are fewer ids than that,
    and no category is more than one ahead of another that could still take one.
    A lone category gets its floor even if that is more than `cases`.
   */
  method CapCounts(lens: seq<nat>, cases: int, floor: nat) returns (counts: seq<nat>, ghost level: nat, ghost k: nat)
    requires |lens| * floor <= cases || |lens| == 1
    ensures Level(lens, counts, level, k) && floor <= level
    ensures Sum(counts) == Min(AtLeast(floor, cases), Sum(lens))
  {
    counts := Floors(lens, floor);
    SumOfSame(counts, floor);
    if |lens| == 1 {
      SumOfOne(counts);
      SumOfOne(lens);
    }
    ghost var short := |lens| == 1 && cases < floor;
    if lens != [] && !short { FloorFits(|lens|, floor, cases); }
    var remaining := cases - Sum(counts);
    level, k := floor, 0;
    while remaining > 0
      invariant remaining == cases - Sum(counts) && floor <= level && (!short ==> remaining >= 0)
      invariant Level(lens, counts, level, k) && (remaining > 0 ==> k == 0)
      invariant short ==> counts == Floors(lens, floor) && level == floor
      decreases remaining
    {
      var before := remaining;
      ghost var start := counts;
      counts, remaining, k := HandOut(lens, counts, before, level);
      if short { NoMore(lens, start, counts, floor, k); }
      if remaining == before { return; }
      if remaining > 0 {
        RoundUp(lens, counts, level);
        level, k := level + 1, 0;
      }
    }
    WithinSizes(lens, counts, level, k);
  }

  function AtLeast(floor: nat, cases: int): nat {
    if cases < floor then floor else cases
  }

  lemma SumOfOne(s: seq<nat>)
    requires |s| == 1
    ensures Sum(s) == s[0]
  {
    assert s[1..] == [];
  }

  lemma FloorFits(n: nat, floor: nat, cases: int)
    requires n > 0 && (n * floor <= cases || (n == 1 && floor <= cases))
    ensures floor <= cases
  {
    assert n * floor == floor + (n - 1) * floor;
  }

  // A lone category short of its floor has nothing more to give.
  lemma NoMore(lens: seq<nat>, start: seq<nat>, counts: seq<nat>, floor: nat, k: nat)
    requires |lens| == 1 && start == Floors(lens, floor) && Level(lens, counts, floor, k)
    ensures Sum(start) == start[0] && Sum(counts) == counts[0]
    ensures start[0] < floor ==> counts == start
  {
    SumOfOne(start);
    SumOfOne(counts);
  }

  // ---------- picking ----------

  /** `p / q` rounded to the nearest integer, halves to the even one. */
  function Round(p: nat, q: nat): nat
    requires q > 0
  {
    var f, r := p / q, p % q;
    if 2 * r < q then f else if 2 * r > q then f + 1 else if f % 2 == 0 then f else f + 1
  }

  lemma RoundNear(p: nat, q: nat)
    requires q > 0
    ensures (2 * Round(p, q) - 1) * q <= 2 * p <= (2 * Round(p, q) + 1) * q
  {
    var f, r := p / q, p % q;
    assert p == f * q + r;
    assert (2 * f - 1) * q == 2 * (f * q) - q && (2 * f + 1) * q == 2 * (f * q) + q && (2 * f + 3) * q == 2 * (f * q) + 3 * q;
  }

  /** `m` is the integer nearest to `p / q`, and the even one of two that are equally near. */
  ghost predicate Nearest(m: nat, p: nat, q: nat) {
    && (2 * m - 1) * q <= 2 * p <= (2 * m + 1) * q
    && (2 * p == (2 * m - 1) * q || 2 * p == (2 * m + 1) * q ==> m % 2 == 0)
  }

  lemma OddTimes(f: int, q: nat)
    ensures (2 * f - 1) * q == 2 * (f * q) - q && (2 * f + 1) * q == 2 * (f * q) + q
  {
  }

  lemma RoundIsNearest(p: nat, q: nat)
    requires q > 0
    ensures Nearest(Round(p, q), p, q)
  {
    var f, r, m := p / q, p % q, Round(p, q);
    assert p == f * q + r;
    OddTimes(m, q);
    if m == f + 1 { assert m * q == f * q + q; }
    NearestBy(m, p, q, f, f * q, r);
  }

  lemma NearestBy(m: nat, p: nat, q: nat, f: nat, t: nat, r: nat)
    requires q > 0 && p == t + r && r < q && t == f * q
    requires (m == f && 2 * r <= q && m * q == t) || (m == f + 1 && 2 * r >= q && m * q == t + q)
    requires 2 * r == q ==> m % 2 == 0
    requires (2 * m - 1) * q == 2 * (m * q) - q && (2 * m + 1) * q == 2 * (m * q) + q
    ensures Nearest(m, p, q)
  {
  }

  /** Values more than one apart round to different integers. */
  lemma RoundApart(p: nat, p': nat, q: nat)
    requires q > 0 && p + q < p'
    ensures Round(p, q) < Round(p', q)
  {
    RoundNear(p, q);
    RoundNear(p', q);
    var m, m' := Round(p, q), Round(p', q);
    assert (2 * m - 1) * q + 2 * q == (2 * m + 1) * q;
    if m' <= m { Scale(2 * m' + 1, 2 * m + 1, q); }
  }

  lemma Scale(a: int, b: int, q: nat)
    requires a <= b
    ensures a * q <= b * q
  {
  }

  /** The `i`-th of `target` indexes spread over `n`. */
  function Pick(n: nat, target: nat, i: nat): nat
    requires 2 <= target < n
  {
    Round(i * (n - 1), target - 1)
  }

  lemma PickGrows(n: nat, target: nat, i: nat)
    requires 2 <= target < n
    ensures Pick(n, target, i) < Pick(n, target, i + 1)
  {
    assert (i + 1) * (n - 1) == i * (n - 1) + (n - 1);
    RoundApart(i * (n - 1), (i + 1) * (n - 1), target - 1);
  }

  lemma {:induction false} PicksGrow(n: nat, target: nat, i: nat, j: nat)
    requires 2 <= target < n && i < j
    ensures Pick(n, target, i) < Pick(n, target, j)
    decreases j
  {
    PickGrows(n, target, j - 1);
    if i < j - 1 { PicksGrow(n, target, i, j - 1); }
  }

  lemma PickEnds(n: nat, target: nat)
    requires 2 <= target < n
    ensures Pick(n, target, 0) == 0 && Pick(n, target, target - 1) == n - 1
  {
    Exact(0, target - 1);
    Exact(n - 1, target - 1);
    assert (target - 1) * (n - 1) == (n - 1) * (target - 1);
  }

  lemma Exact(m: nat, q: nat)
    requires q > 0
    ensures Round(m * q, q) == m
  {
    var k := Round(m * q, q);
    RoundNear(m * q, q);
    assert 2 * (m * q) == (2 * m) * q && (2 * m + 1) * q == (2 * m) * q + q && (2 * m - 1) * q == (2 * m) * q - q;
    if k > m { Scale(2 * m + 1, 2 * k - 1, q); }
    if k < m { Scale(2 * k + 1, 2 * m - 1, q); }
  }

  /** The first `count` picks. */
  function Picks(n: nat, target: nat, count: nat): (picks: seq<nat>)
    requires 2 <= target < n
    ensures |picks| == count
  {
    seq(count, i requires 0 <= i < count => Pick(n, target, i))
  }

  lemma PickBelow(n: nat, target: nat, i: nat)
    requires 2 <= target < n && i < target
    ensures Pick(n, target, i) < n
  {
    PickEnds(n, target);
    if i < target - 1 { PicksGrow(n, target, i, target - 1); }
  }

  /** Strictly increasing, and within bounds. */
  ghost predicate Spread(picks: seq<nat>, n: nat) {
    && (forall i, j :: 0 <= i < j < |picks| ==> picks[i] < picks[j])
    && (forall i :: 0 <= i < |picks| ==> picks[i] < n)
  }

  lemma PicksFit(n: nat, target: nat, picks: seq<nat>)
    requires 2 <= target < n && |picks| == target && forall i :: 0 <= i < target ==> picks[i] == Pick(n, target, i)
    ensures Spread(picks, n) && picks[0] == 0 && picks[target - 1] == n - 1
  {
    PickEnds(n, target);
    forall i, j | 0 <= i < j < target
      ensures picks[i] < picks[j]
    {
      PicksGrow(n, target, i, j);
    }
    forall i | 0 <= i < target
      ensures picks[i] < n
    {
      PickBelow(n, target, i);
    }
  }

  lemma PicksAreNearest(n: nat, target: nat)
    requires 2 <= target < n
    ensures forall i :: 0 <= i < target ==> Nearest(Picks(n, target, target)[i], i * (n - 1), target - 1)
  {
    forall i | 0 <= i < target
      ensures Nearest(Picks(n, target, target)[i], i * (n - 1), target - 1)
    {
      RoundIsNearest(i * (n - 1), target - 1);
    }
  }

  function At<T>(items: seq<T>, indexes: seq<nat>): (r: seq<T>)
    requires forall i :: 0 <= i < |indexes| ==> indexes[i] < |items|
    ensures |r| == |indexes|
  {
    seq(|indexes|, i requires 0 <= i < |indexes| => items[indexes[i]])
  }

  /** Which items a deterministic selection takes. */
  function Chosen(n: nat, target: nat): (indexes: seq<nat>)
    ensures |indexes| == Min(target, n) && Spread(indexes, n)
    ensures 2 <= target < n ==> indexes[0] == 0 && indexes[target - 1] == n - 1
    ensures target == 1 < n ==> indexes == [n / 2]
    ensures 2 <= target < n ==> forall i :: 0 <= i < target ==> Nearest(indexes[i], i * (n - 1), target - 1)
  {
    if target >= n then seq(n, i => i)
    else if target == 0 then []
    else if target == 1 then [n / 2]
    else
      var picks := Picks(n, target, target);
      PicksFit(n, target, picks);
      PicksAreNearest(n, target);
      picks
  }

  /** The rounded positions, as a set. */
  method Positions(n: nat, target: nat) returns (indexes: set<nat>)
    requires 2 <= target < n
    ensures forall x: nat :: x in indexes <==> x in Chosen(n, target)
  {
    indexes := {};
    ghost var picks := Picks(n, target, target);
    for i := 0 to target
      invariant forall x: nat :: x in indexes <==> x in picks[..i]
    {
      assert picks[..i + 1] == picks[..i] + [picks[i]];
      indexes := indexes + {Pick(n, target, i)};
    }
    assert picks[..target] == picks;
  }

  /** The items at a set of positions, in order. */
  method InOrder<T>(items: seq<T>, indexes: set<nat>, ghost picks: seq<nat>) returns (r: seq<T>)
    requires Spread(picks, |items|) && forall x: nat :: x in indexes <==> x in picks
    ensures r == At(items, picks)
  {
    r := [];
    ghost var taken := 0;
    for x := 0 to |items|
      invariant taken <= |picks| && r == At(items, picks[..taken])
      invariant taken > 0 ==> picks[taken - 1] < x
      invariant taken < |picks| ==> x <= picks[taken]
    {
      if x in indexes {
        Next(picks, taken, x);
        r := r + [items[x]];
        taken := taken + 1;
        assert picks[..taken] == picks[..taken - 1] + [picks[taken - 1]];
      }
    }
    assert picks[..taken] == picks;
  }

  lemma Next(picks: seq<nat>, taken: nat, x: nat)
    requires forall i, j :: 0 <= i < j < |picks| ==> picks[i] < picks[j]
    requires taken <= |picks| && (taken > 0 ==> picks[taken - 1] < x) && x in picks
    ensures taken < |picks| && (x <= picks[taken] ==> picks[taken] == x)
  {
    var j :| 0 <= j < |picks| && picks[j] == x;
    assert j >= taken;
  }

  /**
    Take `target` items, spread evenly. The set of rounded positions has exactly
    `target` members, so the step that would top it up is never reached.
   */
  method Select<T>(items: seq<T>, target: int) returns (r: seq<T>)
    ensures r == At(items, Chosen(|items|, if target < 0 then 0 else target))
  {
    if target <= 0 { return []; }
    if target >= |items| {
      assert items == At(items, Chosen(|items|, target));
      return items;
    }
    if target == 1 { return [items[|items| / 2]]; }
    var indexes := Positions(|items|, target);
    r := InOrder(items, indexes, Chosen(|items|, target));
    if |r| != target { assert false; }
  }

  // ---------- capping ----------

  function Sizes<T>(ids: seq<seq<T>>): (lens: seq<nat>)
    ensures |lens| == |ids|
  {
    seq(|ids|, i requires 0 <= i < |ids| => |ids[i]|)
  }

  function Total<T>(ids: seq<seq<T>>): nat {
    Sum(Sizes(ids))
  }

  function NonEmpty<T>(ids: seq<seq<T>>): seq<seq<T>> {
    if ids == [] then [] else (if ids[0] == [] then [] else [ids[0]]) + NonEmpty(ids[1..])
  }

  /** The categories that have ids, each as often as it was listed. */
  lemma {:induction false} NonEmptyKeeps<T>(ids: seq<seq<T>>, c: seq<T>)
    ensures multiset(NonEmpty(ids))[c] == if c == [] then 0 else multiset(ids)[c]
  {
    if ids != [] {
      NonEmptyKeeps(ids[1..], c);
      assert ids == [ids[0]] + ids[1..];
      assert NonEmpty(ids) == (if ids[0] == [] then [] else [ids[0]]) + NonEmpty(ids[1..]);
    }
  }

  /** `kept` is an even selection of each category. */
  ghost predicate EvenlyKept<T>(categories: seq<seq<T>>, kept: seq<seq<T>>) {
    |kept| == |categories|
    && forall i :: 0 <= i < |kept| ==> kept[i] == At(categories[i], Chosen(|categories[i]|, |kept[i]|))
  }

  lemma FewEnough(cases: int, floor: nat, count: nat)
    requires 1 <= floor && count == AtLeast(1, cases / floor)
    ensures count * floor <= cases || count == 1
  {
    if cases >= floor { assert cases == floor * (cases / floor) + cases % floor; }
  }

  lemma Fewer(a: nat, b: nat, floor: nat)
    requires a <= b
    ensures a * floor <= b * floor
  {
  }

  /** The categories that can each have `floor` cases: all of them, or an even selection of one at least. */
  method Thin<T>(sampled: seq<seq<T>>, cases: int, floor: nat) returns (chosen: seq<seq<T>>)
    requires 1 <= floor && sampled != []
    ensures chosen == if cases < |sampled| * floor then At(sampled, Chosen(|sampled|, AtLeast(1, cases / floor))) else sampled
    ensures |chosen| * floor <= cases || |chosen| == 1
  {
    chosen := sampled;
    if cases < |sampled| * floor {
      var count := cases / floor;
      if count < 1 { count := 1; }
      FewEnough(cases, floor, count);
      chosen := Select(sampled, count);
      Fewer(|chosen|, count, floor);
    }
  }

  method Keep<T>(chosen: seq<seq<T>>, counts: seq<nat>) returns (kept: seq<seq<T>>)
    requires |counts| == |chosen| && forall i :: 0 <= i < |counts| ==> counts[i] <= |chosen[i]|
    ensures EvenlyKept(chosen, kept) && Sizes(kept) == counts
  {
    kept := [];
    for i := 0 to |chosen|
      invariant |kept| == i
      invariant forall j :: 0 <= j < i ==> |kept[j]| == counts[j] && kept[j] == At(chosen[j], Chosen(|chosen[j]|, counts[j]))
    {
      var some := Select(chosen[i], counts[i]);
      kept := kept + [some];
    }
  }

  /** The categories that ids are kept from: the non-empty ones, thinned out if the floor does not fit. */
  function Categories<T>(sampled: seq<seq<T>>, cases: int, floor: nat): seq<seq<T>>
    requires floor >= 1
  {
    var present := NonEmpty(sampled);
    if cases < |present| * floor then At(present, Chosen(|present|, AtLeast(1, cases / floor))) else present
  }

  /** Some level fits all counts, give or take one. */
  ghost predicate Levelled(lens: seq<nat>, counts: seq<nat>) {
    exists level: nat, k: nat :: Level(lens, counts, level, k)
  }

  /**
    Cap the sampled ids at `cases` in all; empty categories drop out. Too many
    categories for the floor are thinned out evenly first; of those chosen,
    exactly `cases` ids are kept, or all if there are fewer, levelled across
    categories and spread evenly within each. A cap below the floor is not
    kept to: one category is chosen and gets its floor.
   */
  method CapSampledIds<T>(sampled: seq<seq<T>>, cases: int, minPerCategory: int) returns (kept: seq<seq<T>>)
    ensures var floor := AtLeast(1, minPerCategory);
            var categories := Categories(sampled, cases, floor);
            && EvenlyKept(categories, kept) && Levelled(Sizes(categories), Sizes(kept))
            && (NonEmpty(sampled) != [] ==> Total(kept) == Min(AtLeast(floor, cases), Total(categories)))
  {
    var floor: nat := if minPerCategory < 1 then 1 else minPerCategory;
    var present := NonEmpty(sampled);
    if present == [] {
      kept := [];
      assert Level([], [], 0, 0);
      return;
    }
    var chosen := Thin(present, cases, floor);
    var counts;
    ghost var level, k;
    counts, level, k := CapCounts(Sizes(chosen), cases, floor);
    kept := Keep(chosen, counts);
    assert Level(Sizes(chosen), Sizes(kept), level, k);
  }
}
