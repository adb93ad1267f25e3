/** The Favorites page: the search over the saved listings and the tab and empty-state branches. */
module Favorites {
  import opened Text
  import opened Lists
  import opened ItemCard

  /** A saved listing and the date it was saved. */
  datatype Favorite = Favorite(item: Listing, dateAdded: string)

  /** The search predicate: lower-cased title or lower-cased category contains the lower-cased query. */
  predicate QueryMatches(f: Favorite, query: string)
    ensures QueryMatches(f, query) <==>
      OccursIn(Lower(f.item.title), Lower(query)) || OccursIn(Lower(f.item.category), Lower(query))
  {
    IncludesIffSliceAt(Lower(f.item.title), Lower(query));
    IncludesIffSliceAt(Lower(f.item.category), Lower(query));
    Includes(Lower(f.item.title), Lower(query)) || Includes(Lower(f.item.category), Lower(query))
  }

  /** `filteredItems`: the favourites the query keeps, in saved order. */
  function FilteredFavorites(favorites: seq<Favorite>, query: string): (r: seq<Favorite>)
    ensures |r| <= |favorites|
    ensures forall f :: f in r <==> f in favorites && QueryMatches(f, query)
  {
    if favorites == [] then []
    else (if QueryMatches(favorites[0], query) then [favorites[0]] else [])
         + FilteredFavorites(favorites[1..], query)
  }

  /** The result is an order-preserving subsequence of the saved list. */
  lemma {:induction false} FilteredFavoritesIsSubsequence(favorites: seq<Favorite>, query: string)
    ensures IsSubsequence(FilteredFavorites(favorites, query), favorites)
  {
    if favorites != [] {
      FilteredFavoritesIsSubsequence(favorites[1..], query);
      var r, t := FilteredFavorites(favorites, query), FilteredFavorites(favorites[1..], query);
      if QueryMatches(favorites[0], query) {
        assert r == [favorites[0]] + t && r[1..] == t;
      } else {
        assert r == t;
      }
    }
  }

  /** How many saved listings the query keeps. */
  function CountQueryMatches(favorites: seq<Favorite>, query: string): nat
  {
    if favorites == [] then 0
    else (if QueryMatches(favorites[0], query) then 1 else 0) + CountQueryMatches(favorites[1..], query)
  }

  /** One entry per kept favourite: the result's length is the number of matches. */
  lemma {:induction false} FilteredFavoritesLength(favorites: seq<Favorite>, query: string)
    ensures |FilteredFavorites(favorites, query)| == CountQueryMatches(favorites, query)
  {
    if favorites != [] {
      FilteredFavoritesLength(favorites[1..], query);
    }
  }

  /** The empty query keeps every favourite: every string includes "". */
  lemma {:induction false} EmptyQueryKeepsAll(favorites: seq<Favorite>)
    ensures FilteredFavorites(favorites, "") == favorites
  {
    if favorites != [] {
      EmptyQueryKeepsAll(favorites[1..]);
    }
  }

  /** Queries that differ only in the case of their letters give the same result. */
  lemma {:induction false} QueryIgnoresCase(favorites: seq<Favorite>, q1: string, q2: string)
    requires SameUpToCase(q1, q2)
    ensures FilteredFavorites(favorites, q1) == FilteredFavorites(favorites, q2)
  {
    SameUpToCaseIffSameLower(q1, q2);
    if favorites != [] {
      QueryIgnoresCase(favorites[1..], q1, q2);
    }
  }

  /** What the Favorites tab shows. */
  datatype FavoritesView = FavoritesView(
    tabCount: nat,
    showNoFavorites: bool,
    grid: seq<Favorite>)

  function View(favorites: seq<Favorite>, query: string): (v: FavoritesView)
    ensures v.tabCount == |favorites|
    ensures v.showNoFavorites <==> favorites == []
    ensures !v.showNoFavorites ==> v.grid == FilteredFavorites(favorites, query)
  {
    if favorites == [] then FavoritesView(0, true, [])
    else FavoritesView(|favorites|, false, FilteredFavorites(favorites, query))
  }

  /**
   * The tab count and the "No favorites yet" branch do not depend on the query:
   * a query that matches nothing leaves an empty grid, not the empty-state card.
   */
  lemma ViewCountsIgnoreQuery(favorites: seq<Favorite>, q1: string, q2: string)
    ensures View(favorites, q1).tabCount == View(favorites, q2).tabCount
    ensures View(favorites, q1).showNoFavorites == View(favorites, q2).showNoFavorites
  {
  }
}
