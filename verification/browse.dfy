/**
 * The Browse page: the catalog filter over the listings, the filter chips,
 * "Clear all filters", and the counts and branches the results area shows.
 */
module Browse {
  import opened Text
  import opened Lists
  import opened ItemCard

  /** The sentinel each select holds when it does not filter. */
  const All := "all"

  /** The four filter state variables of the page, as one value. */
  datatype Query = Query(searchTerm: string, category: string, size: string, condition: string)

  /** The page's initial state: empty search, every select on 'all'. */
  const InitialQuery := Query("", All, All, All)

  /** Case-insensitive search over title or category; the empty term passes. */
  predicate SearchMatches(item: Listing, term: string)
    ensures SearchMatches(item, term) <==>
      term == ""
      || OccursIn(Lower(item.title), Lower(term))
      || OccursIn(Lower(item.category), Lower(term))
  {
    IncludesIffSliceAt(Lower(item.title), Lower(term));
    IncludesIffSliceAt(Lower(item.category), Lower(term));
    term == ""
    || Includes(Lower(item.title), Lower(term))
    || Includes(Lower(item.category), Lower(term))
  }

  /** Case-insensitive substring match on the category. */
  predicate CategoryMatches(item: Listing, category: string)
    ensures CategoryMatches(item, category) <==>
      category == All || OccursIn(Lower(item.category), Lower(category))
  {
    IncludesIffSliceAt(Lower(item.category), Lower(category));
    category == All || Includes(Lower(item.category), Lower(category))
  }

  /** Exact, case-sensitive equality on the size. */
  predicate SizeMatches(item: Listing, size: string)
    ensures size == All ==> SizeMatches(item, size)
    ensures size != All ==> (SizeMatches(item, size) <==> item.size == size)
  {
    size == All || item.size == size
  }

  /** Case-insensitive equality on the condition. */
  predicate ConditionMatches(item: Listing, condition: string)
    ensures ConditionMatches(item, condition) <==>
      condition == All || SameUpToCase(item.condition, condition)
  {
    SameUpToCaseIffSameLower(item.condition, condition);
    condition == All || Lower(item.condition) == Lower(condition)
  }

  /** The predicate passed to `items.filter`: all four conjuncts; the initial query passes everything. */
  predicate Matches(item: Listing, q: Query)
    ensures q == InitialQuery ==> Matches(item, q)
  {
    && SearchMatches(item, q.searchTerm)
    && CategoryMatches(item, q.category)
    && SizeMatches(item, q.size)
    && ConditionMatches(item, q.condition)
  }

  /** `filteredItems`: the listings that pass, in catalog order. */
  function FilteredItems(items: seq<Listing>, q: Query): (r: seq<Listing>)
    ensures |r| <= |items|
    ensures forall x :: x in r <==> x in items && Matches(x, q)
  {
    if items == [] then []
    else (if Matches(items[0], q) then [items[0]] else []) + FilteredItems(items[1..], q)
  }

  /** The result keeps the catalog's order and adds or repeats nothing. */
  lemma {:induction false} FilteredIsSubsequence(items: seq<Listing>, q: Query)
    ensures IsSubsequence(FilteredItems(items, q), items)
    ensures multiset(FilteredItems(items, q)) <= multiset(items)
  {
    var r := FilteredItems(items, q);
    if items != [] {
      FilteredIsSubsequence(items[1..], q);
      var t := FilteredItems(items[1..], q);
      if Matches(items[0], q) {
        assert r == [items[0]] + t && r[1..] == t;
      } else {
        assert r == t;
      }
    }
    SubsequenceMultiset(r, items);
  }

  /** How many listings of the catalog pass the query. */
  function CountMatches(items: seq<Listing>, q: Query): nat
  {
    if items == [] then 0 else (if Matches(items[0], q) then 1 else 0) + CountMatches(items[1..], q)
  }

  /** One entry per passing listing: the result's length is the number of matches. */
  lemma {:induction false} FilteredLength(items: seq<Listing>, q: Query)
    ensures |FilteredItems(items, q)| == CountMatches(items, q)
  {
    if items != [] {
      FilteredLength(items[1..], q);
    }
  }

  /** With every filter off, the whole catalog shows. */
  lemma {:induction false} InitialQueryKeepsAll(items: seq<Listing>)
    ensures FilteredItems(items, InitialQuery) == items
  {
    if items != [] {
      InitialQueryKeepsAll(items[1..]);
    }
  }

  /** If every listing passing q2 also passes q1, q2's result is a subsequence of q1's. */
  lemma {:induction false} StrongerQueryShrinks(items: seq<Listing>, q1: Query, q2: Query)
    requires forall x :: x in items && Matches(x, q2) ==> Matches(x, q1)
    ensures IsSubsequence(FilteredItems(items, q2), FilteredItems(items, q1))
  {
    if items != [] {
      StrongerQueryShrinks(items[1..], q1, q2);
      var r1, r2 := FilteredItems(items, q1), FilteredItems(items, q2);
      var t1, t2 := FilteredItems(items[1..], q1), FilteredItems(items[1..], q2);
      if Matches(items[0], q2) {
        assert r1 == [items[0]] + t1 && r2 == [items[0]] + t2;
        assert r1[1..] == t1 && r2[1..] == t2;
      } else if Matches(items[0], q1) {
        assert r1 == [items[0]] + t1 && r2 == t2;
        assert r1[1..] == t1;
        assert IsSubsequence(r2, r1[1..]);
      } else {
        assert r1 == t1 && r2 == t2;
      }
    }
  }

  /**
   * Moving any one filter off its neutral value (a select off 'all', the search
   * box off "") can only shrink the result.
   */
  lemma NarrowOneFilter(items: seq<Listing>, q: Query, value: string)
    ensures q.category == All ==>
      IsSubsequence(FilteredItems(items, q.(category := value)), FilteredItems(items, q))
    ensures q.size == All ==>
      IsSubsequence(FilteredItems(items, q.(size := value)), FilteredItems(items, q))
    ensures q.condition == All ==>
      IsSubsequence(FilteredItems(items, q.(condition := value)), FilteredItems(items, q))
    ensures q.searchTerm == "" ==>
      IsSubsequence(FilteredItems(items, q.(searchTerm := value)), FilteredItems(items, q))
  {
    if q.category == All { StrongerQueryShrinks(items, q, q.(category := value)); }
    if q.size == All { StrongerQueryShrinks(items, q, q.(size := value)); }
    if q.condition == All { StrongerQueryShrinks(items, q, q.(condition := value)); }
    if q.searchTerm == "" { StrongerQueryShrinks(items, q, q.(searchTerm := value)); }
  }

  /** Filtering by the conjunction equals filtering the first result by the second query. */
  lemma {:induction false} FilterComposes(items: seq<Listing>, q: Query, q1: Query, q2: Query)
    requires forall x :: x in items ==> (Matches(x, q) <==> Matches(x, q1) && Matches(x, q2))
    ensures FilteredItems(items, q) == FilteredItems(FilteredItems(items, q1), q2)
  {
    if items != [] {
      var x, rest := items[0], items[1..];
      assert x in items;
      assert forall y :: y in rest ==> y in items;
      FilterComposes(rest, q, q1, q2);
      var t1 := FilteredItems(rest, q1);
      var lhs := FilteredItems(items, q);
      if Matches(x, q1) {
        var f1 := FilteredItems(items, q1);
        assert f1 == [x] + t1;
        assert f1[0] == x && f1[1..] == t1;
        var rhs := FilteredItems(f1, q2);
        if Matches(x, q2) {
          assert rhs == [x] + FilteredItems(t1, q2);
          assert lhs == [x] + FilteredItems(rest, q);
        } else {
          assert rhs == FilteredItems(t1, q2);
          assert lhs == FilteredItems(rest, q);
        }
      } else {
        assert FilteredItems(items, q1) == t1;
        assert lhs == FilteredItems(rest, q);
      }
    }
  }

  /**
   * Category C together with size S gives exactly the listings that pass the
   * category filter alone and then the size filter alone.
   */
  lemma CategoryAndSizeIntersect(items: seq<Listing>, q: Query)
    ensures FilteredItems(items, q)
         == FilteredItems(FilteredItems(items, q.(size := All)), InitialQuery.(size := q.size))
  {
    FilterComposes(items, q, q.(size := All), InitialQuery.(size := q.size));
  }

  /** The × on the category chip: only the category goes back to 'all'. */
  function RemoveCategoryChip(q: Query): (r: Query)
    ensures r.category == All
    ensures r.searchTerm == q.searchTerm && r.size == q.size && r.condition == q.condition
  {
    q.(category := All)
  }

  /** The × on the size chip: only the size goes back to 'all'. */
  function RemoveSizeChip(q: Query): (r: Query)
    ensures r.size == All
    ensures r.searchTerm == q.searchTerm && r.category == q.category && r.condition == q.condition
  {
    q.(size := All)
  }

  /** The × on the condition chip: only the condition goes back to 'all'. */
  function RemoveConditionChip(q: Query): (r: Query)
    ensures r.condition == All
    ensures r.searchTerm == q.searchTerm && r.category == q.category && r.size == q.size
  {
    q.(condition := All)
  }

  /** Removing any chip never hides a listing that was showing. */
  lemma ChipRemovalWidens(items: seq<Listing>, q: Query)
    ensures IsSubsequence(FilteredItems(items, q), FilteredItems(items, RemoveCategoryChip(q)))
    ensures IsSubsequence(FilteredItems(items, q), FilteredItems(items, RemoveSizeChip(q)))
    ensures IsSubsequence(FilteredItems(items, q), FilteredItems(items, RemoveConditionChip(q)))
  {
    StrongerQueryShrinks(items, RemoveCategoryChip(q), q);
    StrongerQueryShrinks(items, RemoveSizeChip(q), q);
    StrongerQueryShrinks(items, RemoveConditionChip(q), q);
  }

  /** "Clear all filters": empty search and every select on 'all'. */
  function ClearAllFilters(q: Query): (r: Query)
    ensures r.searchTerm == "" && r.category == All && r.size == All && r.condition == All
  {
    Query("", All, All, All)
  }

  /** After "Clear all filters" the whole catalog shows again. */
  lemma ClearAllShowsEverything(items: seq<Listing>, q: Query)
    ensures FilteredItems(items, ClearAllFilters(q)) == items
  {
    InitialQueryKeepsAll(items);
  }

  /** What the results area shows: the count line, the grid, and one of two branches below it. */
  datatype ResultsView = ResultsView(
    count: nat,
    grid: seq<Listing>,
    showEmptyState: bool,
    showLoadMore: bool)

  function Results(items: seq<Listing>, q: Query): (v: ResultsView)
    ensures v.grid == FilteredItems(items, q)
    ensures v.count == |v.grid|
    ensures v.showEmptyState <==> v.count == 0
    ensures v.showLoadMore <==> v.count > 0
  {
    var r := FilteredItems(items, q);
    ResultsView(|r|, r, |r| == 0, |r| > 0)
  }

  /** The empty state shows exactly when no listing passes; otherwise "Load More" shows instead. */
  lemma EmptyStateIffNoMatch(items: seq<Listing>, q: Query)
    ensures Results(items, q).showEmptyState <==> forall x :: x in items ==> !Matches(x, q)
    ensures Results(items, q).showEmptyState != Results(items, q).showLoadMore
  {
    var r := FilteredItems(items, q);
    if r != [] {
      assert r[0] in r;
    }
  }

  /**
   * The three policies: size by exact, case-sensitive equality; condition by
   * equality up to letter case; category by substring up to letter case.
   */
  lemma MatchingPolicies(item: Listing, q: Query)
    requires q.size != All && q.category != All && q.condition != All
    ensures SizeMatches(item, q.size) <==> item.size == q.size
    ensures ConditionMatches(item, q.condition) <==> SameUpToCase(item.condition, q.condition)
    ensures CategoryMatches(item, q.category) <==>
      OccursIn(Lower(item.category), Lower(q.category))
    ensures SameUpToCase(item.category, q.category) ==> CategoryMatches(item, q.category)
  {
    SameUpToCaseIffSameLower(item.category, q.category);
    assert SliceAt(Lower(item.category), Lower(item.category), 0);
  }
}
