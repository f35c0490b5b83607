/**
 * The in-memory step of three reports: after the database returns one row
 * per business with its aggregates, the row list is filtered and sorted.
 */
module Reports {
  import opened Wrappers
  import opened ArrayMethods

  /** A business with its average rating and review count. */
  datatype RatedBusiness = RatedBusiness(
    id: int,
    name: string,
    category: string,
    neighborhood: string,
    avgRating: real,
    reviewCount: int)

  /** A business with the number of users who favourited it. */
  datatype FavoritedBusiness = FavoritedBusiness(
    id: int,
    name: string,
    category: string,
    neighborhood: string,
    favoriteCount: int)

  /** `filters.minReviews || 0`: an absent minimum is zero, and so is zero. */
  function MinReviews(minReviews: Option<int>): int {
    if minReviews.None? then 0 else minReviews.value
  }

  function Abs(x: real): real {
    if x < 0.0 then -x else x
  }

  /** The top-rated comparator: ratings within 0.01 of each other count as tied and fall back to review counts. */
  function ByRatingThenReviews(a: RatedBusiness, b: RatedBusiness): real {
    if Abs(a.avgRating - b.avgRating) < 0.01 then (b.reviewCount - a.reviewCount) as real
    else b.avgRating - a.avgRating
  }

  /** `getTopRatedBusinesses` after the query: keep rows with enough reviews, best rated first. */
  function TopRated(rows: seq<RatedBusiness>, minReviews: Option<int>): (report: seq<RatedBusiness>)
    ensures forall i :: 0 <= i < |report| ==> report[i].reviewCount >= MinReviews(minReviews)
    ensures forall b {:trigger multiset(report)[b]} :: (multiset(report)[b] ==
      if b.reviewCount >= MinReviews(minReviews) then multiset(rows)[b] else 0)
  {
    var kept := Filter(rows, (b: RatedBusiness) => b.reviewCount >= MinReviews(minReviews));
    var report := SortBy(kept, ByRatingThenReviews);
    assert forall i :: 0 <= i < |report| ==> report[i] in multiset(report);
    report
  }

  function ByReviews(a: RatedBusiness, b: RatedBusiness): real {
    (b.reviewCount - a.reviewCount) as real
  }

  function ReviewKey(b: RatedBusiness): real {
    b.reviewCount as real
  }

  /** `getMostReviewedBusinesses` after the query: keep rows with enough reviews, most reviewed first. */
  function MostReviewed(rows: seq<RatedBusiness>, minReviews: Option<int>): (report: seq<RatedBusiness>)
    ensures forall i :: 0 <= i < |report| ==> report[i].reviewCount >= MinReviews(minReviews)
    ensures forall b {:trigger multiset(report)[b]} :: (multiset(report)[b] ==
      if b.reviewCount >= MinReviews(minReviews) then multiset(rows)[b] else 0)
  {
    var kept := Filter(rows, (b: RatedBusiness) => b.reviewCount >= MinReviews(minReviews));
    var report := SortBy(kept, ByReviews);
    assert forall i :: 0 <= i < |report| ==> report[i] in multiset(report);
    report
  }

  /**
   * The most-reviewed report is ordered by non-increasing review count, and
   * businesses with equal counts keep the order the query returned them in.
   */
  lemma MostReviewedOrdered(rows: seq<RatedBusiness>, minReviews: Option<int>)
    ensures NonIncreasing(MostReviewed(rows, minReviews), ReviewKey)
    ensures var kept := Filter(rows, (b: RatedBusiness) => b.reviewCount >= MinReviews(minReviews));
      forall k :: WithKey(MostReviewed(rows, minReviews), ReviewKey, k) == WithKey(kept, ReviewKey, k)
  {
    var kept := Filter(rows, (b: RatedBusiness) => b.reviewCount >= MinReviews(minReviews));
    assert DescendingBy(ByReviews, ReviewKey);
    SortByDescending(kept, ByReviews, ReviewKey);
  }

  function ByFavorites(a: FavoritedBusiness, b: FavoritedBusiness): real {
    (b.favoriteCount - a.favoriteCount) as real
  }

  function FavoriteKey(b: FavoritedBusiness): real {
    b.favoriteCount as real
  }

  /** `getMostFavoritedBusinesses` after the query: businesses favourited at least once, most favourited first. */
  function MostFavorited(rows: seq<FavoritedBusiness>): (report: seq<FavoritedBusiness>)
    ensures forall i :: 0 <= i < |report| ==> report[i].favoriteCount > 0
    ensures forall b {:trigger multiset(report)[b]} :: (multiset(report)[b] ==
      if b.favoriteCount > 0 then multiset(rows)[b] else 0)
  {
    var report := SortBy(Filter(rows, (b: FavoritedBusiness) => b.favoriteCount > 0), ByFavorites);
    assert forall i :: 0 <= i < |report| ==> report[i] in multiset(report);
    report
  }

  /** The most-favourited report is ordered by non-increasing count, ties in query order. */
  lemma MostFavoritedOrdered(rows: seq<FavoritedBusiness>)
    ensures NonIncreasing(MostFavorited(rows), FavoriteKey)
    ensures var kept := Filter(rows, (b: FavoritedBusiness) => b.favoriteCount > 0);
      forall k :: WithKey(MostFavorited(rows), FavoriteKey, k) == WithKey(kept, FavoriteKey, k)
  {
    var kept := Filter(rows, (b: FavoritedBusiness) => b.favoriteCount > 0);
    assert DescendingBy(ByFavorites, FavoriteKey);
    SortByDescending(kept, ByFavorites, FavoriteKey);
  }
}
