/** A stable sort of a sequence, descending by an integer key: the model
    of `Array.prototype.sort` with a comparator `(a, b) => key(b) - key(a)`
    (the sort is stable since ECMAScript 2019). */
module StableSort {
  import opened Seqs

  predicate Descending<T>(s: seq<T>, key: T -> int) {
    forall i, j :: 0 <= i < j < |s| ==> key(s[i]) >= key(s[j])
  }

  /** Insert `x` before the first element whose key is not greater than
      its own, so that it stays ahead of the elements with its key that
      came after it. */
  function Insert<T>(x: T, s: seq<T>, key: T -> int): (r: seq<T>)
    ensures |r| == |s| + 1
    ensures multiset(r) == multiset(s) + multiset{x}
  {
    if s == [] || key(s[0]) <= key(x) then [x] + s
    else
      assert s == [s[0]] + s[1..];
      [s[0]] + Insert(x, s[1..], key)
  }

  /** Insertion sort, from the back. */
  function SortBy<T>(s: seq<T>, key: T -> int): (r: seq<T>)
    ensures |r| == |s|
    ensures multiset(r) == multiset(s)
  {
    if s == [] then []
    else
      assert s == [s[0]] + s[1..];
      Insert(s[0], SortBy(s[1..], key), key)
  }

  predicate AtMost<T>(s: seq<T>, bound: int, key: T -> int) {
    forall i :: 0 <= i < |s| ==> key(s[i]) <= bound
  }

  lemma TailDescending<T>(s: seq<T>, key: T -> int)
    requires s != [] && Descending(s, key)
    ensures Descending(s[1..], key) && AtMost(s[1..], key(s[0]), key)
  {
    var tail := s[1..];
    forall i, j | 0 <= i < j < |tail| ensures key(tail[i]) >= key(tail[j]) {
      assert tail[i] == s[i + 1] && tail[j] == s[j + 1];
    }
    forall i | 0 <= i < |tail| ensures key(tail[i]) <= key(s[0]) {
      assert tail[i] == s[i + 1];
    }
  }

  lemma ConsDescending<T>(h: T, t: seq<T>, key: T -> int)
    requires Descending(t, key) && AtMost(t, key(h), key)
    ensures Descending([h] + t, key)
  {
    var r := [h] + t;
    forall i, j | 0 <= i < j < |r| ensures key(r[i]) >= key(r[j]) {
      assert r[j] == t[j - 1];
      if i > 0 {
        assert r[i] == t[i - 1];
      }
    }
  }

  lemma {:induction false} InsertAtMost<T>(x: T, s: seq<T>, key: T -> int, bound: int)
    requires AtMost(s, bound, key) && key(x) <= bound
    ensures AtMost(Insert(x, s, key), bound, key)
  {
    if s == [] || key(s[0]) <= key(x) {
      var r := [x] + s;
      forall i | 0 <= i < |r| ensures key(r[i]) <= bound {
        if i > 0 {
          assert r[i] == s[i - 1];
        }
      }
    } else {
      var tail := s[1..];
      assert AtMost(tail, bound, key) by {
        forall i | 0 <= i < |tail| ensures key(tail[i]) <= bound {
          assert tail[i] == s[i + 1];
        }
      }
      InsertAtMost(x, tail, key, bound);
      var r := [s[0]] + Insert(x, tail, key);
      forall i | 0 <= i < |r| ensures key(r[i]) <= bound {
        if i > 0 {
          assert r[i] == Insert(x, tail, key)[i - 1];
        }
      }
    }
  }

  lemma {:induction false} InsertDescending<T>(x: T, s: seq<T>, key: T -> int)
    requires Descending(s, key)
    ensures Descending(Insert(x, s, key), key)
  {
    if s == [] {
    } else if key(s[0]) <= key(x) {
      TailDescending(s, key);
      forall i | 0 <= i < |s| ensures key(s[i]) <= key(x) {
        if i > 0 {
          assert s[i] == s[1..][i - 1];
        }
      }
      ConsDescending(x, s, key);
    } else {
      TailDescending(s, key);
      InsertDescending(x, s[1..], key);
      InsertAtMost(x, s[1..], key, key(s[0]));
      ConsDescending(s[0], Insert(x, s[1..], key), key);
    }
  }

  /** The result is sorted, descending by key. */
  lemma {:induction false} SortDescending<T>(s: seq<T>, key: T -> int)
    ensures Descending(SortBy(s, key), key)
  {
    if s != [] {
      SortDescending(s[1..], key);
      InsertDescending(s[0], SortBy(s[1..], key), key);
    }
  }

  /** The elements that have key `k`. */
  function WithKey<T>(key: T -> int, k: int): T -> bool {
    (y: T) => key(y) == k
  }

  lemma {:induction false} InsertStable<T>(x: T, s: seq<T>, key: T -> int, k: int)
    ensures Filter(Insert(x, s, key), WithKey(key, k))
      == When(key(x) == k, x) + Filter(s, WithKey(key, k))
  {
    var p := WithKey(key, k);
    if s == [] || key(s[0]) <= key(x) {
      FilterCons(x, s, p);
    } else {
      var kept0 := if p(s[0]) then [s[0]] else [];
      var keptX := When(key(x) == k, x);
      var tail := Filter(s[1..], p);
      FilterPastHead(x, s, key, p);
      InsertStable(x, s[1..], key, k);
      assert Filter(s, p) == kept0 + tail;
      assert kept0 == [] || keptX == [] by {
        if p(s[0]) {
          assert key(s[0]) == k && key(x) < k;
        }
      }
      SwapAroundEmpty(kept0, keptX, tail);
    }
  }

  /** Inserting past the head keeps the head in front of the filtered
      rest. */
  lemma FilterPastHead<T>(x: T, s: seq<T>, key: T -> int, p: T -> bool)
    requires s != [] && key(s[0]) > key(x)
    ensures Filter(Insert(x, s, key), p) == (if p(s[0]) then [s[0]] else []) + Filter(Insert(x, s[1..], key), p)
  {
    var rest := Insert(x, s[1..], key);
    assert Insert(x, s, key) == [s[0]] + rest;
    FilterCons(s[0], rest, p);
  }

  lemma SwapAroundEmpty<T>(a: seq<T>, b: seq<T>, t: seq<T>)
    requires a == [] || b == []
    ensures a + (b + t) == b + (a + t)
  {
    if a == [] {
      assert a + (b + t) == b + t && a + t == t;
    } else {
      assert b + (a + t) == a + t && b + t == t;
    }
  }



  /** Stability: the elements with any one key come out in the order they
      went in. */
  lemma {:induction false} SortStable<T>(s: seq<T>, key: T -> int, k: int)
    ensures Filter(SortBy(s, key), WithKey(key, k)) == Filter(s, WithKey(key, k))
  {
    if s != [] {
      SortStable(s[1..], key, k);
      InsertStable(s[0], SortBy(s[1..], key), key, k);
    }
  }

  /** A comparator that always answers 0 leaves the order as it is. */
  lemma {:induction false} SortByConstantKey<T>(s: seq<T>, key: T -> int)
    requires forall x, y :: key(x) == key(y)
    ensures SortBy(s, key) == s
  {
    if s != [] {
      SortByConstantKey(s[1..], key);
    }
  }
}

/** `src/components/ActionableItems.tsx`: the category buttons, the
    category filter, the sort, and the quick-win and strategic lists of
    the implementation plan. */
module ActionableItems {
  import opened Seqs
  import opened ReportTypes
  import opened StableSort

  // ---------------------------------------------------------------------
  // categories

  /** The position of the first occurrence of `x`. */
  function FirstIndex(s: seq<string>, x: string): (k: nat)
    requires x in s
    ensures k < |s| && s[k] == x
    ensures forall j :: 0 <= j < k ==> s[j] != x
  {
    if s[0] == x then 0 else 1 + FirstIndex(s[1..], x)
  }

  /** A prefix that holds `x` holds its first occurrence. */
  lemma FirstIndexInPrefix(s: seq<string>, n: nat, x: string)
    requires n <= |s| && x in s[..n]
    ensures FirstIndex(s[..n], x) == FirstIndex(s, x)
  {
    var a := FirstIndex(s[..n], x);
    var b := FirstIndex(s, x);
    assert s[..n][a] == s[a];
  }

  /** `Array.from(new Set(s))`: every value once, in the order of first
      appearance. */
  function Distinct(s: seq<string>): (r: seq<string>)
    ensures forall x :: x in r <==> x in s
    ensures forall i, j :: 0 <= i < j < |r| ==> r[i] != r[j]
  {
    if s == [] then []
    else
      var init := Distinct(s[..|s| - 1]);
      assert forall x :: x in s <==> x in s[..|s| - 1] || x == s[|s| - 1] by {
        assert s == s[..|s| - 1] + [s[|s| - 1]];
      }
      if s[|s| - 1] in init then init else init + [s[|s| - 1]]
  }

  /** Every value of `r` is in `s`, and they come in the order of their
      first appearance in `s`. */
  predicate InFirstAppearanceOrder(s: seq<string>, r: seq<string>) {
    (forall i :: 0 <= i < |r| ==> r[i] in s) &&
    forall i, j :: 0 <= i < j < |r| ==> FirstIndex(s, r[i]) < FirstIndex(s, r[j])
  }

  /** The values come out in the order of their first appearance. */
  lemma {:induction false} DistinctInFirstAppearanceOrder(s: seq<string>)
    ensures InFirstAppearanceOrder(s, Distinct(s))
  {
    if s != [] {
      var n := |s| - 1;
      var init := Distinct(s[..n]);
      DistinctInFirstAppearanceOrder(s[..n]);
      var r := Distinct(s);
      assert r == if s[n] in init then init else init + [s[n]];
      forall i, j | 0 <= i < j < |r| ensures FirstIndex(s, r[i]) < FirstIndex(s, r[j]) {
        assert r[i] == init[i] && init[i] in init;
        FirstIndexInPrefix(s, n, r[i]);
        if j < |init| {
          assert r[j] == init[j] && init[j] in init;
          FirstIndexInPrefix(s, n, r[j]);
          assert InFirstAppearanceOrder(s[..n], init);
          assert FirstIndex(s[..n], init[i]) < FirstIndex(s[..n], init[j]);
        } else {
          assert r[j] == s[n] && s[n] !in s[..n];
          assert FirstIndex(s, r[j]) == n by {
            forall k | 0 <= k < n ensures s[k] != s[n] {
              assert s[k] == s[..n][k];
            }
          }
          assert FirstIndex(s[..n], init[i]) < n;
        }
      }
    }
  }

  function CategoryOf(item: SeoRecommendation): string {
    item.category
  }

  /** The category buttons: 'all', then each category of the items once. */
  function Categories(items: seq<SeoRecommendation>): (categories: seq<string>)
    ensures |categories| >= 1 && categories[0] == "all"
    ensures forall i, j :: 1 <= i < j < |categories| ==> categories[i] != categories[j]
    ensures forall c :: c in categories[1..] <==> exists item :: item in items && item.category == c
  {
    var r := ["all"] + Distinct(Map(items, CategoryOf));
    assert r[1..] == Distinct(Map(items, CategoryOf));
    assert forall c :: c in Map(items, CategoryOf) <==> exists item :: item in items && item.category == c by {
      forall c ensures c in Map(items, CategoryOf) <==> exists item :: item in items && item.category == c {
        if c in Map(items, CategoryOf) {
          var i :| 0 <= i < |items| && Map(items, CategoryOf)[i] == c;
          assert items[i] in items;
        }
        if exists item :: item in items && item.category == c {
          var item :| item in items && item.category == c;
          var i :| 0 <= i < |items| && items[i] == item;
          assert Map(items, CategoryOf)[i] == c;
        }
      }
    }
    r
  }

  // ---------------------------------------------------------------------
  // filter

  function InCategory(category: string): SeoRecommendation -> bool {
    (item: SeoRecommendation) => item.category == category
  }

  /** 'all' keeps every item; any other filter keeps exactly the items of
      that category, in order. */
  function FilteredItems(items: seq<SeoRecommendation>, activeFilter: string): (r: seq<SeoRecommendation>)
    ensures activeFilter == "all" ==> r == items
    ensures forall item :: item in r <==> item in items && (activeFilter == "all" || item.category == activeFilter)
    ensures IsSubsequence(r, items) && multiset(r) <= multiset(items)
  {
    if activeFilter == "all" then
      assert IsSubsequence(items, items) by { SubsequenceOfItself(items); }
      items
    else
      FilterIsSubsequence(items, InCategory(activeFilter));
      FilterSubMultiset(items, InCategory(activeFilter));
      Filter(items, InCategory(activeFilter))
  }

  // ---------------------------------------------------------------------
  // sort

  /** `{ low: 3, medium: 2, high: 1 }`, the values of the effort sort. */
  function EffortValue(l: Level): (v: int)
    ensures 1 <= v <= 3
    ensures v == 3 <==> l == Low
    ensures v == 1 <==> l == High
  {
    match l
    case Low => 3
    case Medium => 2
    case High => 1
  }

  /** The sort key of the comparator as written: priority and impact are
      sorted highest rank first, effort by `effortValues[a] -
      effortValues[b]`, which puts the smallest value, high effort, first;
      any other choice compares everything as equal. */
  function SortKeyAsWritten(sortBy: string): SeoRecommendation -> int {
    if sortBy == "priority" then (item: SeoRecommendation) => Rank(item.priority)
    else if sortBy == "effort" then (item: SeoRecommendation) => -EffortValue(item.effort)
    else if sortBy == "impact" then (item: SeoRecommendation) => Rank(item.impact)
    else (item: SeoRecommendation) => 0
  }

  /** The list `[...filteredItems].sort(...)` as written: a permutation of
      the filtered list, sorted by the key of the comparator as written. */
  function SortedItemsAsWritten(filtered: seq<SeoRecommendation>, sortBy: string): (r: seq<SeoRecommendation>)
    ensures multiset(r) == multiset(filtered)
    ensures Descending(r, SortKeyAsWritten(sortBy))
  {
    SortDescending(filtered, SortKeyAsWritten(sortBy));
    SortBy(filtered, SortKeyAsWritten(sortBy))
  }

  /** As written, "Effort (Easiest first)" lists the hardest items first. */
  lemma EffortSortAsWrittenIsHardestFirst(filtered: seq<SeoRecommendation>)
    ensures var r := SortedItemsAsWritten(filtered, "effort");
      forall i, j :: 0 <= i < j < |r| ==> EffortValue(r[i].effort) <= EffortValue(r[j].effort)
  {
    SortDescending(filtered, SortKeyAsWritten("effort"));
  }

  /** A low-effort item followed by a high-effort one: the sort as written
      swaps them. */
  lemma EffortSortAsWrittenCounterexample(easy: SeoRecommendation, hard: SeoRecommendation)
    requires easy.effort == Low && hard.effort == High
    ensures SortedItemsAsWritten([easy, hard], "effort") == [hard, easy]
  {
    var key := SortKeyAsWritten("effort");
    assert [easy, hard][1..] == [hard];
    assert SortBy([hard], key) == [hard];
  }

  /** The sort key the labels describe: highest priority, easiest effort
      (low effort = higher rank), highest impact; any other choice compares
      everything as equal. */
  function SortKey(sortBy: string): SeoRecommendation -> int {
    if sortBy == "priority" then (item: SeoRecommendation) => Rank(item.priority)
    else if sortBy == "effort" then (item: SeoRecommendation) => EffortValue(item.effort)
    else if sortBy == "impact" then (item: SeoRecommendation) => Rank(item.impact)
    else (item: SeoRecommendation) => 0
  }

  /** The sorted copy of the filtered list with the effort comparator
      corrected: a permutation of it, sorted by the chosen key. */
  function SortedItems(filtered: seq<SeoRecommendation>, sortBy: string): (r: seq<SeoRecommendation>)
    ensures multiset(r) == multiset(filtered)
    ensures Descending(r, SortKey(sortBy))
  {
    SortDescending(filtered, SortKey(sortBy));
    SortBy(filtered, SortKey(sortBy))
  }

  /** The corrected effort sort puts the easiest items first. */
  lemma EffortSortIsEasiestFirst(filtered: seq<SeoRecommendation>)
    ensures var r := SortedItems(filtered, "effort");
      forall i, j :: 0 <= i < j < |r| ==> EffortValue(r[i].effort) >= EffortValue(r[j].effort)
  {
  }

  /** Sorting by priority gives non-increasing rank, and items of equal
      priority keep their order. */
  lemma PrioritySortIsStable(filtered: seq<SeoRecommendation>, l: Level)
    ensures var r := SortedItemsAsWritten(filtered, "priority");
      && (forall i, j :: 0 <= i < j < |r| ==> Rank(r[i].priority) >= Rank(r[j].priority))
      && Filter(r, WithKey(SortKeyAsWritten("priority"), Rank(l))) == Filter(filtered, WithKey(SortKeyAsWritten("priority"), Rank(l)))
  {
    SortStable(filtered, SortKeyAsWritten("priority"), Rank(l));
  }

  /** Sorting by impact is likewise stable. */
  lemma ImpactSortIsStable(filtered: seq<SeoRecommendation>, l: Level)
    ensures Filter(SortedItemsAsWritten(filtered, "impact"), WithKey(SortKeyAsWritten("impact"), Rank(l)))
      == Filter(filtered, WithKey(SortKeyAsWritten("impact"), Rank(l)))
  {
    SortStable(filtered, SortKeyAsWritten("impact"), Rank(l));
  }

  /** Any other choice of sort leaves the order unchanged. */
  lemma UnknownSortKeepsOrder(filtered: seq<SeoRecommendation>, sortBy: string)
    requires sortBy != "priority" && sortBy != "effort" && sortBy != "impact"
    ensures SortedItemsAsWritten(filtered, sortBy) == filtered
  {
    SortByConstantKey(filtered, SortKeyAsWritten(sortBy));
  }

  /** The correction changes the effort sort only. */
  lemma CorrectionOnlyAffectsEffort(filtered: seq<SeoRecommendation>, sortBy: string)
    requires sortBy != "effort"
    ensures SortedItems(filtered, sortBy) == SortedItemsAsWritten(filtered, sortBy)
  {
    assert SortKey(sortBy) == SortKeyAsWritten(sortBy);
  }

  // ---------------------------------------------------------------------
  // the implementation plan

  predicate IsQuickWin(item: SeoRecommendation) {
    item.impact == High && item.effort == Low
  }

  predicate IsStrategic(item: SeoRecommendation) {
    item.impact == High && (item.effort == Medium || item.effort == High)
  }

  /** The first three high-impact, low-effort items of the sorted list;
      an empty list shows "No quick wins identified". */
  function QuickWins(sorted: seq<SeoRecommendation>): (wins: seq<SeoRecommendation>)
    ensures |wins| == if Count(sorted, IsQuickWin) < 3 then Count(sorted, IsQuickWin) else 3
    ensures forall i :: 0 <= i < |wins| ==> IsQuickWin(wins[i]) && wins[i] in sorted
    ensures wins == Filter(sorted, IsQuickWin)[..|wins|]
    ensures wins == [] <==> forall i :: 0 <= i < |sorted| ==> !IsQuickWin(sorted[i])
  {
    var all := Filter(sorted, IsQuickWin);
    assert all != [] ==> all[0] in sorted;
    Take(all, 3)
  }

  /** The first three high-impact items of medium or high effort; an empty
      list shows "No strategic improvements identified". */
  function StrategicItems(sorted: seq<SeoRecommendation>): (items: seq<SeoRecommendation>)
    ensures |items| == if Count(sorted, IsStrategic) < 3 then Count(sorted, IsStrategic) else 3
    ensures forall i :: 0 <= i < |items| ==> IsStrategic(items[i]) && items[i] in sorted
    ensures items == Filter(sorted, IsStrategic)[..|items|]
    ensures items == [] <==> forall i :: 0 <= i < |sorted| ==> !IsStrategic(sorted[i])
  {
    var all := Filter(sorted, IsStrategic);
    assert all != [] ==> all[0] in sorted;
    Take(all, 3)
  }

  /** No item is both a quick win and a strategic improvement. */
  lemma PlanListsDisjoint(sorted: seq<SeoRecommendation>, item: SeoRecommendation)
    ensures !(item in QuickWins(sorted) && item in StrategicItems(sorted))
  {
  }

  /** What the component shows for a list of items, a category filter and
      a sort choice. */
  datatype View = View(
    categories: seq<string>, sortedItems: seq<SeoRecommendation>,
    quickWins: seq<SeoRecommendation>, strategic: seq<SeoRecommendation>)

  function ViewOf(items: seq<SeoRecommendation>, activeFilter: string, sortBy: string): (v: View)
    ensures multiset(v.sortedItems) == multiset(FilteredItems(items, activeFilter))
    ensures Descending(v.sortedItems, SortKeyAsWritten(sortBy))
    ensures |v.quickWins| <= 3 && |v.strategic| <= 3
  {
    var sorted := SortedItemsAsWritten(FilteredItems(items, activeFilter), sortBy);
    View(Categories(items), sorted, QuickWins(sorted), StrategicItems(sorted))
  }
}
