/**
 * The Review schema (field bounds and the unique (product, user) key), the
 * purchase check of `createReview`, the falsy-fallback merge of
 * `updateReview` and the rating aggregation of `calculateAverageRating`.
 */
module Reviews {
  import opened Common
  import opened Catalog
  import opened Orders

  datatype Review = Review(id: ReviewId, product: ProductId, user: UserId, rating: real, comment: string)

  const MinReviewRating := 1.0
  const MaxReviewRating := 5.0
  const MaxCommentLength := 500

  /** The schema validators: rating in [1, 5], comment required (non-empty) and at most 500 long. */
  predicate ValidReview(r: Review)
  {
    MinReviewRating <= r.rating <= MaxReviewRating && 0 < |r.comment| <= MaxCommentLength
  }

  /** Review ids are unique, and so is the compound index { product: 1, user: 1 }. */
  predicate UniqueReviews(rs: seq<Review>)
  {
    forall i, j :: 0 <= i < |rs| && 0 <= j < |rs| && i != j ==>
      rs[i].id != rs[j].id && (rs[i].product != rs[j].product || rs[i].user != rs[j].user)
  }

  predicate HasReviewed(rs: seq<Review>, pid: ProductId, user: UserId)
  {
    exists j :: 0 <= j < |rs| && rs[j].product == pid && rs[j].user == user
  }

  /** `Review.findById`: the position of the review with this id, or -1. */
  function FindReview(rs: seq<Review>, id: ReviewId): (k: int)
    ensures -1 <= k < |rs|
    ensures k >= 0 ==> rs[k].id == id
    ensures k == -1 <==> forall j :: 0 <= j < |rs| ==> rs[j].id != id
  {
    if rs == [] then -1
    else if rs[|rs| - 1].id == id then |rs| - 1
    else FindReview(rs[..|rs| - 1], id)
  }

  /** `Order.findOne({ user, 'items.product': pid, isPaid: true })` finds something. */
  predicate HasPurchased(orders: map<OrderId, Order>, user: UserId, pid: ProductId)
  {
    exists oid :: oid in orders && orders[oid].user == user && orders[oid].isPaid
                  && exists j :: 0 <= j < |orders[oid].items| && orders[oid].items[j].product == pid
  }

  /** `Review.create`: the document is stored only when the schema validators accept it. */
  function NewReview(id: ReviewId, pid: ProductId, user: UserId, rating: Option<real>, comment: Option<string>)
    : (r: Result<Review>)
    ensures r.Ok? <==>
      && rating.Some? && MinReviewRating <= rating.value <= MaxReviewRating
      && comment.Some? && 0 < |comment.value| <= MaxCommentLength
    ensures r.Ok? ==> ValidReview(r.value) && r.value == Review(id, pid, user, rating.value, comment.value)
    ensures r.Err? ==> r.error == ValidationError
  {
    if rating.None? || comment.None? then Err(ValidationError)
    else
      var review := Review(id, pid, user, rating.value, comment.value);
      if ValidReview(review) then Ok(review) else Err(ValidationError)
  }

  /** `given || current` for a rating: absent and 0 are falsy. */
  function OrRating(given: Option<real>, current: real): real
  {
    if given.Some? && given.value != 0.0 then given.value else current
  }

  /** `given || current` for a comment: absent and "" are falsy. */
  function OrComment(given: Option<string>, current: string): string
  {
    if given.Some? && given.value != "" then given.value else current
  }

  /** The field assignments of `updateReview`, before the document is saved. */
  function MergeUpdate(r: Review, rating: Option<real>, comment: Option<string>): (m: Review)
    ensures m.id == r.id && m.product == r.product && m.user == r.user
    ensures (rating.None? || rating.value == 0.0) ==> m.rating == r.rating
    ensures rating.Some? && rating.value != 0.0 ==> m.rating == rating.value
    ensures (comment.None? || comment.value == "") ==> m.comment == r.comment
    ensures comment.Some? && comment.value != "" ==> m.comment == comment.value
  {
    r.(rating := OrRating(rating, r.rating), comment := OrComment(comment, r.comment))
  }

  /** Sending the same update twice has the effect of sending it once. */
  lemma MergeUpdateIdempotent(r: Review, rating: Option<real>, comment: Option<string>)
    ensures MergeUpdate(MergeUpdate(r, rating, comment), rating, comment) == MergeUpdate(r, rating, comment)
  {
  }

  /** Falsy values keep a valid review valid: only truthy values can break the schema. */
  lemma MergeFalsyKeepsValid(r: Review, rating: Option<real>, comment: Option<string>)
    requires ValidReview(r)
    requires rating.None? || rating.value == 0.0 || MinReviewRating <= rating.value <= MaxReviewRating
    requires comment.None? || |comment.value| <= MaxCommentLength
    ensures ValidReview(MergeUpdate(r, rating, comment))
  {
  }

  /** The `$match` count for a product. */
  function ReviewCount(rs: seq<Review>, pid: ProductId): (n: nat)
    ensures n <= |rs|
    ensures n == 0 <==> forall j :: 0 <= j < |rs| ==> rs[j].product != pid
  {
    if rs == [] then 0
    else ReviewCount(rs[..|rs| - 1], pid) + (if rs[|rs| - 1].product == pid then 1 else 0)
  }

  /** The sum of the ratings of the product's reviews. */
  function RatingSum(rs: seq<Review>, pid: ProductId): (sum: real)
    ensures ReviewCount(rs, pid) == 0 ==> sum == 0.0
  {
    if rs == [] then 0.0
    else RatingSum(rs[..|rs| - 1], pid) + (if rs[|rs| - 1].product == pid then rs[|rs| - 1].rating else 0.0)
  }

  lemma {:induction false} RatingSumBounds(rs: seq<Review>, pid: ProductId)
    requires forall i :: 0 <= i < |rs| ==> ValidReview(rs[i])
    ensures MinReviewRating * ReviewCount(rs, pid) as real <= RatingSum(rs, pid)
    ensures RatingSum(rs, pid) <= MaxReviewRating * ReviewCount(rs, pid) as real
  {
    if rs != [] {
      RatingSumBounds(rs[..|rs| - 1], pid);
    }
  }

  /** `Math.round(x * 10) / 10`: half-up rounding to one decimal. */
  function RoundToTenth(x: real): (r: real)
    ensures (r * 10.0).Floor as real == r * 10.0
    ensures x - 0.05 < r <= x + 0.05
  {
    ((x * 10.0 + 0.5).Floor as real) / 10.0
  }

  /** Rounding a value in [lo, hi] with lo and hi whole numbers stays in [lo, hi]. */
  lemma RoundToTenthWithin(x: real, lo: int, hi: int)
    requires lo as real <= x <= hi as real
    ensures lo as real <= RoundToTenth(x) <= hi as real
  {
    var y := x * 10.0 + 0.5;
    assert 10 * lo <= y.Floor <= 10 * hi;
  }

  lemma MeanWithin(sum: real, n: real, lo: real, hi: real)
    requires n > 0.0 && lo * n <= sum <= hi * n
    ensures lo <= sum / n <= hi
  {
  }

  datatype Stats = Stats(rating: real, numReviews: nat)

  /**
   * The `$group` stage and its use: the mean rating rounded to one decimal and
   * the count, or (0, 0) when the product has no review left.
   */
  function Aggregate(rs: seq<Review>, pid: ProductId): (s: Stats)
    ensures s.numReviews == ReviewCount(rs, pid)
    ensures s.numReviews == 0 ==> s.rating == 0.0
    ensures (s.rating * 10.0).Floor as real == s.rating * 10.0
    ensures s.numReviews > 0 ==>
      var mean := RatingSum(rs, pid) / s.numReviews as real;
      mean - 0.05 < s.rating <= mean + 0.05
  {
    var n := ReviewCount(rs, pid);
    if n > 0 then Stats(RoundToTenth(RatingSum(rs, pid) / n as real), n) else Stats(0.0, 0)
  }

  /** Over valid reviews the aggregated rating lies in [1, 5], or is 0 with no review. */
  lemma AggregateInRange(rs: seq<Review>, pid: ProductId)
    requires forall i :: 0 <= i < |rs| ==> ValidReview(rs[i])
    ensures 0.0 <= Aggregate(rs, pid).rating <= MaxRating
    ensures Aggregate(rs, pid).numReviews > 0 ==> MinReviewRating <= Aggregate(rs, pid).rating
  {
    var n := ReviewCount(rs, pid);
    if n > 0 {
      RatingSumBounds(rs, pid);
      var sum := RatingSum(rs, pid);
      MeanWithin(sum, n as real, MinReviewRating, MaxReviewRating);
      RoundToTenthWithin(sum / n as real, 1, 5);
    }
  }

  /** A new review counts once more for its product and for no other. */
  lemma AggregateAfterAppend(rs: seq<Review>, r: Review, pid: ProductId)
    ensures ReviewCount(rs + [r], pid) == ReviewCount(rs, pid) + (if r.product == pid then 1 else 0)
    ensures RatingSum(rs + [r], pid) == RatingSum(rs, pid) + (if r.product == pid then r.rating else 0.0)
  {
    assert (rs + [r])[..|rs|] == rs;
  }

  /** The guards of `createReview` keep both keys unique. */
  lemma UniqueAfterAppend(rs: seq<Review>, r: Review)
    requires UniqueReviews(rs)
    requires forall j :: 0 <= j < |rs| ==> rs[j].id != r.id
    requires !HasReviewed(rs, r.product, r.user)
    ensures UniqueReviews(rs + [r])
  {
  }

  /** Rewriting rating and comment in place keeps both keys unique. */
  lemma UniqueAfterReplace(rs: seq<Review>, k: nat, r: Review)
    requires UniqueReviews(rs)
    requires k < |rs| && r.id == rs[k].id && r.product == rs[k].product && r.user == rs[k].user
    ensures UniqueReviews(rs[k := r])
  {
  }

  /** Deleting a review keeps both keys unique. */
  lemma UniqueAfterRemove(rs: seq<Review>, k: nat)
    requires UniqueReviews(rs)
    requires k < |rs|
    ensures UniqueReviews(rs[..k] + rs[k + 1..])
  {
    var s := rs[..k] + rs[k + 1..];
    forall i | 0 <= i < |s| ensures s[i] == rs[if i < k then i else i + 1] {
    }
  }
}
