/** The business list view: a case-insensitive search and category filter,
    a three-way sort on a copy, fixed pages of twenty rows, the
    de-duplicated category menu, the five-button page window and the
    clamped Previous/Next buttons. */
module BusinessList {
  import opened Values
  import Text
  import Seqs

  /** A business type as the list receives it. `createdAt` is the
      `created_at` timestamp already read as milliseconds. */
  datatype Business = Business(
    id: string,
    name: string,
    description: Option<string>,
    industryCategory: Option<string>,
    createdAt: Option<int>,
    isCustom: bool)

  const ItemsPerPage: nat := 20

  // ----- filter -----

  /** The lower-cased name contains the lower-cased term, or the
      description is present and its lower-cased form contains it. */
  predicate MatchesSearch(b: Business, term: string)
  {
    Text.Contains(Text.ToLower(b.name), Text.ToLower(term))
    || (b.description.Some? && Text.Contains(Text.ToLower(b.description.value), Text.ToLower(term)))
  }

  predicate MatchesCategory(b: Business, category: string)
  {
    category == "all" || b.industryCategory == Some(category)
  }

  predicate Keep(b: Business, term: string, category: string)
  {
    MatchesSearch(b, term) && MatchesCategory(b, category)
  }

  /** `filteredBusinesses`: the businesses that match both the search and
      the category, in their original order. */
  function FilterBusinesses(bs: seq<Business>, term: string, category: string): (r: seq<Business>)
    ensures forall b :: b in r <==> b in bs && MatchesSearch(b, term) && MatchesCategory(b, category)
    ensures Seqs.IsSubsequence(r, bs)
    ensures forall b :: multiset(r)[b] == if Keep(b, term, category) then multiset(bs)[b] else 0
  {
    var p := (b: Business) => Keep(b, term, category);
    Seqs.FilterIsSubsequence(bs, p);
    Seqs.FilterCounts(bs, p);
    Seqs.Filter(bs, p)
  }

  /** With no search term and the category `'all'`, nothing is hidden. */
  lemma {:induction false} EmptyFilterKeepsAll(bs: seq<Business>)
    ensures FilterBusinesses(bs, "", "all") == bs
  {
    forall i | 0 <= i < |bs|
      ensures Keep(bs[i], "", "all")
    {
      Text.ContainsEmpty(Text.ToLower(bs[i].name));
    }
    Seqs.FilterKeepsAll(bs, (b: Business) => Keep(b, "", "all"));
  }

  // ----- sort -----

  /** `a.localeCompare(b) <= 0`, with the locale order replaced by the
      order of code units. */
  predicate LexLessEq(a: string, b: string)
  {
    if a == [] then true
    else if b == [] then false
    else if a[0] < b[0] then true
    else if a[0] == b[0] then LexLessEq(a[1..], b[1..])
    else false
  }

  lemma {:induction false} LexTotal(a: string, b: string)
    ensures LexLessEq(a, b) || LexLessEq(b, a)
  {
    if a != [] && b != [] && a[0] == b[0] {
      LexTotal(a[1..], b[1..]);
    }
  }

  lemma {:induction false} LexTransitive(a: string, b: string, c: string)
    requires LexLessEq(a, b) && LexLessEq(b, c)
    ensures LexLessEq(a, c)
  {
    if a != [] && b != [] && c != [] && a[0] == b[0] && b[0] == c[0] {
      LexTransitive(a[1..], b[1..], c[1..]);
    }
  }

  /** The three orderings of the sort menu; anything but `'name'` and
      `'category'` sorts by recency. */
  datatype SortMode = ByName | ByCategory | ByRecent

  function ModeOf(sortBy: string): (m: SortMode)
    ensures m == ByName <==> sortBy == "name"
    ensures m == ByCategory <==> sortBy == "category"
  {
    if sortBy == "name" then ByName
    else if sortBy == "category" then ByCategory
    else ByRecent
  }

  /** `industry_category || ''`. */
  function CategoryKey(b: Business): string
  {
    OrElse(b.industryCategory, "")
  }

  /** `new Date(created_at || 0)` as a number of milliseconds. */
  function CreatedKey(b: Business): int
  {
    match b.createdAt
    case Some(t) => t
    case None => 0
  }

  /** The comparator returns a value `<= 0` for `a` against `b`: `a` may
      stay in front of `b`. Recency is descending. */
  predicate InOrder(mode: SortMode, a: Business, b: Business)
  {
    match mode
    case ByName => LexLessEq(a.name, b.name)
    case ByCategory => LexLessEq(CategoryKey(a), CategoryKey(b))
    case ByRecent => CreatedKey(b) <= CreatedKey(a)
  }

  lemma InOrderTotal(mode: SortMode, a: Business, b: Business)
    ensures InOrder(mode, a, b) || InOrder(mode, b, a)
  {
    match mode
    case ByName => LexTotal(a.name, b.name);
    case ByCategory => LexTotal(CategoryKey(a), CategoryKey(b));
    case ByRecent =>
  }

  lemma InOrderTransitive(mode: SortMode, a: Business, b: Business, c: Business)
    requires InOrder(mode, a, b) && InOrder(mode, b, c)
    ensures InOrder(mode, a, c)
  {
    match mode
    case ByName => LexTransitive(a.name, b.name, c.name);
    case ByCategory => LexTransitive(CategoryKey(a), CategoryKey(b), CategoryKey(c));
    case ByRecent =>
  }

  ghost predicate Sorted(mode: SortMode, xs: seq<Business>)
  {
    forall i, j :: 0 <= i < j < |xs| ==> InOrder(mode, xs[i], xs[j])
  }

  /** Places `x` in front of the first element it may precede, so that it
      stays ahead of the equal elements that followed it. */
  function Insert(mode: SortMode, x: Business, ys: seq<Business>): (r: seq<Business>)
    ensures multiset(r) == multiset(ys) + multiset{x}
    ensures |r| == |ys| + 1
  {
    if ys == [] then [x]
    else if InOrder(mode, x, ys[0]) then [x] + ys
    else
      assert ys == [ys[0]] + ys[1..];
      [ys[0]] + Insert(mode, x, ys[1..])
  }

  /** An element that may precede every element of a sorted list may be
      put in front of it. */
  lemma ConsSorted(mode: SortMode, h: Business, rest: seq<Business>)
    requires Sorted(mode, rest)
    requires forall k :: 0 <= k < |rest| ==> InOrder(mode, h, rest[k])
    ensures Sorted(mode, [h] + rest)
  {
    var r := [h] + rest;
    forall i, j | 0 <= i < j < |r|
      ensures InOrder(mode, r[i], r[j])
    {
      assert r[j] == rest[j - 1];
      if i > 0 {
        assert r[i] == rest[i - 1];
      }
    }
  }

  /** The head of a sorted list may precede everything it is followed by
      once another element it may precede is inserted. */
  lemma HeadBeforeInsert(mode: SortMode, x: Business, ys: seq<Business>)
    requires ys != [] && Sorted(mode, ys) && InOrder(mode, ys[0], x)
    ensures forall k :: 0 <= k < |Insert(mode, x, ys[1..])| ==> InOrder(mode, ys[0], Insert(mode, x, ys[1..])[k])
  {
    var tail := ys[1..];
    var rest := Insert(mode, x, tail);
    forall k | 0 <= k < |rest|
      ensures InOrder(mode, ys[0], rest[k])
    {
      assert rest[k] in multiset(rest);
      if rest[k] != x {
        assert rest[k] in multiset(tail);
        var m :| 0 <= m < |tail| && tail[m] == rest[k];
        assert ys[m + 1] == tail[m];
      }
    }
  }

  lemma {:induction false} InsertSorted(mode: SortMode, x: Business, ys: seq<Business>)
    requires Sorted(mode, ys)
    ensures Sorted(mode, Insert(mode, x, ys))
  {
    if ys == [] {
    } else if InOrder(mode, x, ys[0]) {
      forall k | 0 <= k < |ys|
        ensures InOrder(mode, x, ys[k])
      {
        if k > 0 {
          InOrderTransitive(mode, x, ys[0], ys[k]);
        }
      }
      ConsSorted(mode, x, ys);
    } else {
      InOrderTotal(mode, x, ys[0]);
      InsertSorted(mode, x, ys[1..]);
      HeadBeforeInsert(mode, x, ys);
      ConsSorted(mode, ys[0], Insert(mode, x, ys[1..]));
    }
  }

  /** `[...filtered].sort(comparator)`: a sort of a copy. The result
      is a permutation of the input, ordered by the chosen comparator. */
  function SortBusinesses(mode: SortMode, xs: seq<Business>): (r: seq<Business>)
    ensures multiset(r) == multiset(xs)
    ensures Sorted(mode, r)
  {
    if xs == [] then []
    else
      var rest := SortBusinesses(mode, xs[1..]);
      InsertSorted(mode, xs[0], rest);
      assert xs == [xs[0]] + xs[1..];
      Insert(mode, xs[0], rest)
  }

  // ----- pagination -----

  function Min(a: int, b: int): int
  {
    if a <= b then a else b
  }

  function Max(a: int, b: int): int
  {
    if a >= b then a else b
  }

  /** `Array.prototype.slice(start, end)`: negative positions count from
      the end, every position is clamped to the array. */
  function JsSlice<T>(xs: seq<T>, start: int, end: int): (r: seq<T>)
    ensures start <= end ==> |r| <= end - start
    ensures 0 <= start <= end ==> r == xs[Min(start, |xs|)..Min(end, |xs|)]
    ensures multiset(r) <= multiset(xs)
  {
    var from := if start < 0 then Max(|xs| + start, 0) else Min(start, |xs|);
    var to := if end < 0 then Max(|xs| + end, 0) else Min(end, |xs|);
    if from < to then
      SliceMultiset(xs, from, to);
      xs[from..to]
    else []
  }

  lemma SliceMultiset<T>(xs: seq<T>, from: nat, to: nat)
    requires from <= to <= |xs|
    ensures multiset(xs[from..to]) <= multiset(xs)
  {
    assert xs == xs[..from] + xs[from..to] + xs[to..];
  }

  /** `Math.ceil(n / itemsPerPage)`. */
  function TotalPages(n: nat): (r: nat)
    ensures r * ItemsPerPage >= n
    ensures r > 0 ==> (r - 1) * ItemsPerPage < n
  {
    (n + ItemsPerPage - 1) / ItemsPerPage
  }

  function StartIndex(page: int): int
  {
    (page - 1) * ItemsPerPage
  }

  /** `paginatedBusinesses` for `currentPage == page`. */
  function Page<T>(xs: seq<T>, page: int): (r: seq<T>)
    ensures |r| <= ItemsPerPage
    ensures 1 <= page ==> r == xs[Min(StartIndex(page), |xs|)..Min(StartIndex(page) + ItemsPerPage, |xs|)]
    ensures multiset(r) <= multiset(xs)
  {
    JsSlice(xs, StartIndex(page), StartIndex(page) + ItemsPerPage)
  }

  /** A page has rows exactly when its number lies between 1 and the
      number of pages. */
  lemma PageNonEmpty<T>(xs: seq<T>, page: int)
    requires 1 <= page
    ensures Page(xs, page) != [] <==> page <= TotalPages(|xs|)
  {
  }

  /** Pages 1 to k, one after the other. */
  function Pages<T>(xs: seq<T>, k: nat): seq<T>
  {
    if k == 0 then [] else Pages(xs, k - 1) + Page(xs, k)
  }

  /** Page k holds the rows from (k - 1) * 20 up to k * 20. */
  lemma PageSlice<T>(xs: seq<T>, k: nat)
    requires 1 <= k
    ensures Min((k - 1) * ItemsPerPage, |xs|) <= Min(k * ItemsPerPage, |xs|)
    ensures Page(xs, k) == xs[Min((k - 1) * ItemsPerPage, |xs|)..Min(k * ItemsPerPage, |xs|)]
  {
    assert StartIndex(k) + ItemsPerPage == k * ItemsPerPage;
  }

  lemma {:induction false} PagesPrefix<T>(xs: seq<T>, k: nat)
    ensures Pages(xs, k) == xs[..Min(k * ItemsPerPage, |xs|)]
  {
    if k == 0 {
      assert k * ItemsPerPage == 0;
    } else {
      var a := Min((k - 1) * ItemsPerPage, |xs|);
      var b := Min(k * ItemsPerPage, |xs|);
      assert Pages(xs, k - 1) == xs[..a] by {
        PagesPrefix(xs, k - 1);
      }
      assert a <= b <= |xs| && Page(xs, k) == xs[a..b] by {
        PageSlice(xs, k);
      }
      PrefixConcat(xs, a, b);
    }
  }

  lemma PrefixConcat<T>(xs: seq<T>, a: nat, b: nat)
    requires a <= b <= |xs|
    ensures xs[..a] + xs[a..b] == xs[..b]
  {
  }

  /** Reading every page in turn gives back the whole sorted list. */
  lemma PagesReassemble<T>(xs: seq<T>)
    ensures Pages(xs, TotalPages(|xs|)) == xs
  {
    PagesPrefix(xs, TotalPages(|xs|));
  }

  /** The number shown in front of a row: its 1-based position in the
      whole sorted list. */
  function RowNumber<T>(xs: seq<T>, page: int, index: nat): (n: int)
    requires 1 <= page && index < |Page(xs, page)|
    ensures 1 <= n <= |xs| && xs[n - 1] == Page(xs, page)[index]
  {
    StartIndex(page) + index + 1
  }

  /** The upper bound of "Showing a-b of n": the position of the last row
      on the page when the page exists. */
  function ShowingUpper<T>(xs: seq<T>, page: int): (hi: int)
    ensures 1 <= page <= TotalPages(|xs|) ==> StartIndex(page) < hi <= |xs| && hi == StartIndex(page) + |Page(xs, page)|
  {
    Min(StartIndex(page) + ItemsPerPage, |xs|)
  }

  /** Clicking Previous: `Math.max(prev - 1, 1)`. */
  function PreviousPage(page: int): (r: int)
    ensures r >= 1
    ensures page > 1 ==> r == page - 1
    ensures page <= 1 ==> r == 1
  {
    Max(page - 1, 1)
  }

  /** Clicking Next: `Math.min(prev + 1, totalPages)`. */
  function NextPage(page: int, totalPages: nat): (r: int)
    ensures r <= totalPages
    ensures page < totalPages ==> r == page + 1
    ensures page >= totalPages ==> r == totalPages
  {
    Min(page + 1, totalPages)
  }

  /** From a page in range, both buttons lead to a page in range. */
  lemma ClampsStayInRange(page: int, totalPages: nat)
    requires 1 <= page <= totalPages
    ensures 1 <= PreviousPage(page) <= totalPages
    ensures 1 <= NextPage(page, totalPages) <= totalPages
  {
  }

  /** The numbered buttons: at most five consecutive page numbers around
      the current page, shifted so they stay within the pages that exist. */
  function PageWindow(currentPage: int, totalPages: nat): (r: seq<int>)
    ensures |r| == Min(5, totalPages)
    ensures forall i :: 0 <= i < |r| ==> r[i] == r[0] + i
    ensures forall i :: 0 <= i < |r| ==> 1 <= r[i] <= totalPages
    ensures 1 <= currentPage <= totalPages ==> currentPage in r
  {
    var first :=
      if totalPages <= 5 then 1
      else if currentPage <= 3 then 1
      else if currentPage >= totalPages - 2 then totalPages - 4
      else currentPage - 2;
    var r := seq(Min(5, totalPages), i => first + i);
    assert 1 <= currentPage <= totalPages ==> r[currentPage - first] == currentPage;
    r
  }

  // ----- category menu and empty state -----

  /** A business with a truthy `industry_category`. */
  predicate HasCategory(b: Business)
  {
    b.industryCategory.Some? && b.industryCategory.value != ""
  }

  /** `businesses.map(b => b.industry_category).filter(Boolean)`: the
      categories of the businesses that have one, in list order and with
      repeats. */
  function CategoryValues(bs: seq<Business>): (r: seq<string>)
    ensures forall c :: c in r <==> c != "" && exists b :: b in bs && b.industryCategory == Some(c)
    ensures |r| == |Seqs.Filter(bs, HasCategory)|
    ensures forall i :: 0 <= i < |r| ==> Seqs.Filter(bs, HasCategory)[i].industryCategory == Some(r[i])
  {
    if bs == [] then []
    else
      var rest := CategoryValues(bs[1..]);
      assert bs == [bs[0]] + bs[1..];
      var kept := Seqs.Filter(bs[1..], HasCategory);
      if HasCategory(bs[0]) then
        assert Seqs.Filter(bs, HasCategory) == [bs[0]] + kept;
        [bs[0].industryCategory.value] + rest
      else
        assert Seqs.Filter(bs, HasCategory) == kept;
        rest
  }

  /** The position of the first occurrence of `x` in `xs`. */
  function FirstIndex<T(==)>(xs: seq<T>, x: T): (i: nat)
    requires x in xs
    ensures i < |xs| && xs[i] == x
    ensures forall j :: 0 <= j < i ==> xs[j] != x
  {
    if xs[0] == x then 0
    else
      assert xs == [xs[0]] + xs[1..];
      1 + FirstIndex(xs[1..], x)
  }

  /** Appending to a sequence does not move a first occurrence. */
  lemma FirstIndexExtend<T>(xs: seq<T>, y: T, x: T)
    requires x in xs
    ensures x in xs + [y] && FirstIndex(xs + [y], x) == FirstIndex(xs, x)
  {
    assert forall j :: 0 <= j < |xs| ==> (xs + [y])[j] == xs[j];
  }

  /** `[...new Set(xs)]`: each value once, ordered by where it first
      occurs. */
  function Distinct<T(==,!new)>(xs: seq<T>): (r: seq<T>)
    ensures forall x :: x in r <==> x in xs
    ensures forall i, j :: 0 <= i < j < |r| ==> r[i] != r[j]
    ensures forall i, j :: 0 <= i < j < |r| ==> FirstIndex(xs, r[i]) < FirstIndex(xs, r[j])
  {
    if xs == [] then []
    else
      var init := xs[..|xs| - 1];
      var last := xs[|xs| - 1];
      assert xs == init + [last];
      var rest := Distinct(init);
      assert forall x :: x in init ==> FirstIndex(xs, x) == FirstIndex(init, x) by {
        forall x | x in init
          ensures FirstIndex(xs, x) == FirstIndex(init, x)
        {
          FirstIndexExtend(init, last, x);
        }
      }
      if last in init then rest
      else
        assert FirstIndex(xs, last) == |init| by {
          assert forall j :: 0 <= j < |init| ==> init[j] == xs[j];
        }
        rest + [last]
  }

  /** The position of the first business in category `c`. */
  function FirstCarrier(bs: seq<Business>, c: string): (i: nat)
    requires exists b :: b in bs && b.industryCategory == Some(c)
    ensures i < |bs| && bs[i].industryCategory == Some(c)
    ensures forall j :: 0 <= j < i ==> bs[j].industryCategory != Some(c)
  {
    if bs[0].industryCategory == Some(c) then 0
    else
      assert forall b :: b in bs ==> b == bs[0] || b in bs[1..];
      1 + FirstCarrier(bs[1..], c)
  }

  /** One step of `CategoryValues`. */
  lemma CategoryValuesCons(bs: seq<Business>)
    requires bs != []
    ensures CategoryValues(bs)
      == (if HasCategory(bs[0]) then [bs[0].industryCategory.value] else []) + CategoryValues(bs[1..])
  {
  }

  /** One step of `FirstIndex` past a different head. */
  lemma FirstIndexCons<T>(y: T, s: seq<T>, x: T)
    requires x in s && y != x
    ensures x in [y] + s && FirstIndex([y] + s, x) == 1 + FirstIndex(s, x)
  {
    assert ([y] + s)[1..] == s;
  }

  /** One step of `FirstCarrier` past a business of another category. */
  lemma FirstCarrierTail(bs: seq<Business>, c: string)
    requires bs != [] && bs[0].industryCategory != Some(c)
    requires exists b :: b in bs[1..] && b.industryCategory == Some(c)
    ensures FirstCarrier(bs, c) == 1 + FirstCarrier(bs[1..], c)
  {
  }

  /** The first occurrences of two categories among the values keep the
      order of their first businesses. */
  lemma {:induction false} CategoryOrder(bs: seq<Business>, c: string, d: string)
    requires c in CategoryValues(bs) && d in CategoryValues(bs)
    requires FirstIndex(CategoryValues(bs), c) < FirstIndex(CategoryValues(bs), d)
    ensures FirstCarrier(bs, c) < FirstCarrier(bs, d)
  {
    var t := bs[1..];
    var rest := CategoryValues(t);
    if HasCategory(bs[0]) {
      var x := bs[0].industryCategory.value;
      if c != x {
        assert c in rest && d in rest
          && FirstIndex(rest, c) < FirstIndex(rest, d) by {
          CategoryValuesCons(bs);
          assert d != x;
          FirstIndexCons(x, rest, c);
          FirstIndexCons(x, rest, d);
        }
        CategoryOrder(t, c, d);
        FirstCarrierTail(bs, c);
        FirstCarrierTail(bs, d);
      }
    } else {
      assert c in rest && d in rest
        && FirstIndex(rest, c) < FirstIndex(rest, d) by {
        CategoryValuesCons(bs);
      }
      CategoryOrder(t, c, d);
      FirstCarrierTail(bs, c);
      FirstCarrierTail(bs, d);
    }
  }

  /** De-duplicating the values keeps the categories in the order of
      their first businesses. */
  lemma DistinctCategoriesOrdered(bs: seq<Business>, r: seq<string>)
    requires r == Distinct(CategoryValues(bs))
    ensures forall i :: 0 <= i < |r| ==> exists b :: b in bs && b.industryCategory == Some(r[i])
    ensures forall i, j :: 0 <= i < j < |r| ==> FirstCarrier(bs, r[i]) < FirstCarrier(bs, r[j])
  {
    var values := CategoryValues(bs);
    forall i, j | 0 <= i < j < |r|
      ensures FirstCarrier(bs, r[i]) < FirstCarrier(bs, r[j])
    {
      assert r[i] in values && r[j] in values;
      CategoryOrder(bs, r[i], r[j]);
    }
  }

  /** The category menu: no duplicate, no empty entry, exactly the
      categories some business carries, ordered by the first business
      that carries each. */
  function Categories(bs: seq<Business>): (r: seq<string>)
    ensures forall i, j :: 0 <= i < j < |r| ==> r[i] != r[j]
    ensures forall c :: c in r <==> c != "" && exists b :: b in bs && b.industryCategory == Some(c)
    ensures forall i, j :: 0 <= i < j < |r| ==> FirstCarrier(bs, r[i]) < FirstCarrier(bs, r[j])
  {
    var r := Distinct(CategoryValues(bs));
    DistinctCategoriesOrdered(bs, r);
    r
  }

  /** The hint under "No businesses found". */
  function EmptyStateHint(searchTerm: string, filterCategory: string): (s: string)
    ensures (searchTerm != "" || filterCategory != "all") <==> s == "Try adjusting your search or filters"
  {
    if searchTerm != "" || filterCategory != "all" then "Try adjusting your search or filters"
    else "Get started by adding your first business type"
  }

  // ----- the composed view -----

  /** The rows on one page of the list. */
  function Rows(bs: seq<Business>, term: string, category: string, sortBy: string, page: int): seq<Business>
  {
    Page(SortBusinesses(ModeOf(sortBy), FilterBusinesses(bs, term, category)), page)
  }

  /** Every row shown, on any page and under any ordering, is one of the
      businesses and passes both filters. */
  lemma RowsMatch(bs: seq<Business>, term: string, category: string, sortBy: string, page: int, b: Business)
    requires b in Rows(bs, term, category, sortBy, page)
    ensures b in bs && MatchesSearch(b, term) && MatchesCategory(b, category)
  {
    var filtered := FilterBusinesses(bs, term, category);
    var sorted := SortBusinesses(ModeOf(sortBy), filtered);
    var rows := Page(sorted, page);
    assert b in multiset(rows);
    assert b in multiset(filtered);
  }
}
