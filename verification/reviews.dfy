/**
 * The review list of one target (hooks/use-reviews.ts): fetch with its
 * target guard, submit with the optimistic `meta` update, and delete. The
 * average is computed over the reals; binary floating point is not modelled.
 */
module Reviews {
  import opened Outcomes
  import opened Seqs

  datatype Review = Review(
    id: string,
    userId: string,
    targetType: string,
    targetId: string,
    rating: int,
    title: Option<string>,
    content: Option<string>,
    isVerified: bool,
    createdAt: string,
    updatedAt: string)

  /** The listing's meta; `total` counts rows, so it is never negative. */
  datatype ReviewsMeta = ReviewsMeta(avgRating: Option<real>, total: nat, limit: int, offset: int)

  datatype ReviewsState = ReviewsState(
    reviews: seq<Review>,
    meta: Option<ReviewsMeta>,
    isLoading: bool,
    error: Option<string>)

  /** The first render: nothing loaded yet, and loading. */
  const InitialState := ReviewsState([], None, true, None)

  /** `json.data` and `json.meta` of a review listing, each possibly absent. */
  datatype ReviewPage = ReviewPage(data: Option<seq<Review>>, meta: Option<ReviewsMeta>)

  /** The error a failed fetch records: the server's message or "Failed to fetch reviews", or the thrown error's. */
  function FetchErrorText<T>(reply: Reply<T>): (e: string)
    requires !reply.Ok?
    ensures reply.NotOk? ==> e == ServerMessageOr(reply.serverMessage, "Failed to fetch reviews")
    ensures reply.Rejected? ==> e == RejectionText(reply.reason, "Failed to fetch reviews")
  {
    match reply
    case NotOk(m) => ServerMessageOr(m, "Failed to fetch reviews")
    case Rejected(reason) => RejectionText(reason, "Failed to fetch reviews")
  }

  /**
   * `fetchReviews`: skipped entirely when the target type or id is empty;
   * otherwise success replaces reviews and meta, failure records the error
   * and keeps both, and loading ends either way.
   */
  function FetchReviews(s: ReviewsState, targetType: string, targetId: string, reply: Reply<ReviewPage>): (r: ReviewsState)
    ensures targetType == "" || targetId == "" ==> r == s
    ensures targetType != "" && targetId != "" ==> !r.isLoading
    ensures targetType != "" && targetId != "" && reply.Ok? ==>
              r.reviews == reply.body.data.GetOr([]) && r.meta == reply.body.meta && r.error.None?
    ensures targetType != "" && targetId != "" && !reply.Ok? ==>
              r.reviews == s.reviews && r.meta == s.meta && r.error == Some(FetchErrorText(reply))
  {
    if targetType == "" || targetId == "" then s
    else match reply
      case Ok(page) => ReviewsState(page.data.GetOr([]), page.meta, false, None)
      case _ => s.(isLoading := false, error := Some(FetchErrorText(reply)))
  }

  /** Without a target the first render's spinner never stops: the guard returns before loading is cleared. */
  lemma NoTargetKeepsLoading(targetId: string, reply: Reply<ReviewPage>)
    ensures FetchReviews(InitialState, "", targetId, reply).isLoading
  {
  }

  /** `y` is a whole number of tenths. */
  predicate IsTenth(y: real) {
    (y * 10.0).Floor as real == y * 10.0
  }

  /** `Math.round(x * 10) / 10`: `x` rounded to one decimal, halves upwards. */
  function RoundToTenth(x: real): (y: real)
    ensures IsTenth(y)
    ensures x - 0.05 < y <= x + 0.05
  {
    var k := (x * 10.0 + 0.5).Floor;
    assert (k as real / 10.0) * 10.0 == k as real;
    k as real / 10.0
  }

  /**
   * The window `(x - 0.05, x + 0.05]` holds exactly one whole number of
   * tenths, so the two clauses above pin the rounded value down.
   */
  lemma RoundToTenthIsTheOnlyTenth(x: real, y: real)
    requires IsTenth(y) && x - 0.05 < y <= x + 0.05
    ensures y == RoundToTenth(x)
  {
    var r := RoundToTenth(x);
    var a := (y * 10.0).Floor;
    var b := (r * 10.0).Floor;
    assert -1.0 < y * 10.0 - r * 10.0 < 1.0;
    assert a == b;
  }

  /** A whole number is a whole number of tenths. */
  lemma WholeIsTenth(n: int)
    ensures IsTenth(n as real)
  {
    assert (n as real) * 10.0 == (n * 10) as real;
  }

  /** The running mean after one more rating, before rounding. */
  function Mean(avg: real, total: nat, rating: int): real
  {
    (avg * total as real + rating as real) / (total as real + 1.0)
  }

  /**
   * The average after one more rating: the submitted rating when there was
   * none, otherwise the running mean rounded to one decimal.
   */
  function NextAverage(avg: Option<real>, total: nat, rating: int): (r: real)
    ensures avg.None? ==> r == rating as real
    ensures IsTenth(r)
    ensures avg.Some? ==> Mean(avg.value, total, rating) - 0.05 < r <= Mean(avg.value, total, rating) + 0.05
  {
    match avg
    case None => WholeIsTenth(rating); rating as real
    case Some(a) => RoundToTenth(Mean(a, total, rating))
  }

  /** A mean of values on a scale stays on that scale. */
  lemma MeanInRange(avg: real, total: nat, rating: int, lo: real, hi: real)
    requires lo <= avg <= hi && lo <= rating as real <= hi
    ensures lo <= Mean(avg, total, rating) <= hi
  {
    var n := total as real;
    assert avg * n <= hi * n && lo * n <= avg * n by {
      assert (hi - avg) * n >= 0.0;
      assert (avg - lo) * n >= 0.0;
    }
    var num := avg * n + rating as real;
    assert lo * (n + 1.0) <= num <= hi * (n + 1.0);
  }

  /** Ratings on the 1..5 scale keep the rounded average on that scale. */
  lemma NextAverageInRange(avg: real, total: nat, rating: int)
    requires 1.0 <= avg <= 5.0 && 1 <= rating <= 5
    ensures 1.0 <= NextAverage(Some(avg), total, rating) <= 5.0
  {
    var mean := Mean(avg, total, rating);
    MeanInRange(avg, total, rating, 1.0, 5.0);
    var f := (mean * 10.0 + 0.5).Floor;
    assert 10 <= f <= 50;
  }

  /** The optimistic `meta` after a successful submit; a null meta stays null. */
  function MetaAfterSubmit(meta: Option<ReviewsMeta>, rating: int): (r: Option<ReviewsMeta>)
    ensures meta.None? <==> r.None?
    ensures meta.Some? ==> r.value.total == meta.value.total + 1
                           && r.value.avgRating == Some(NextAverage(meta.value.avgRating, meta.value.total, rating))
                           && r.value.limit == meta.value.limit && r.value.offset == meta.value.offset
  {
    match meta
    case None => None
    case Some(m) => Some(m.(total := m.total + 1, avgRating := Some(NextAverage(m.avgRating, m.total, rating))))
  }

  /** `{ rating, title?, content? }`. */
  datatype SubmitInput = SubmitInput(rating: int, title: Option<string>, content: Option<string>)

  datatype SubmitRun = SubmitRun(state: ReviewsState, created: Option<Review>)

  /**
   * `submit`: the server's review goes in front of the list and the meta is
   * updated; any failure returns null and changes nothing.
   */
  function Submit(s: ReviewsState, input: SubmitInput, reply: Reply<Review>): (r: SubmitRun)
    ensures reply.Ok? ==> r.created == Some(reply.body) && r.state.reviews == [reply.body] + s.reviews
                          && r.state.meta == MetaAfterSubmit(s.meta, input.rating)
    ensures !reply.Ok? ==> r == SubmitRun(s, None)
    ensures r.state.isLoading == s.isLoading && r.state.error == s.error
  {
    match reply
    case Ok(review) =>
      SubmitRun(s.(reviews := [review] + s.reviews, meta := MetaAfterSubmit(s.meta, input.rating)), Some(review))
    case _ => SubmitRun(s, None)
  }

  function HasId(id: string): Review -> bool {
    (rv: Review) => rv.id == id
  }

  datatype DeleteRun = DeleteRun(state: ReviewsState, deleted: bool)

  /**
   * `deleteReview`: on success the reviews with that id are dropped and the
   * total goes down by one, never below zero; any failure returns false
   * and changes nothing. The average is left as it was.
   */
  function DeleteReview(s: ReviewsState, id: string, reply: Reply<()>): (r: DeleteRun)
    ensures r.deleted <==> reply.Ok?
    ensures !reply.Ok? ==> r.state == s
    ensures reply.Ok? ==> (forall x :: x in r.state.reviews <==> x in s.reviews && x.id != id)
                          && IsSubsequence(r.state.reviews, s.reviews)
                          && |r.state.reviews| == |s.reviews| - Count(HasId(id), s.reviews)
    ensures reply.Ok? ==> (r.state.meta.Some? <==> s.meta.Some?)
    ensures reply.Ok? && s.meta.Some? ==>
              r.state.meta.value.total == (if s.meta.value.total >= 1 then s.meta.value.total - 1 else 0)
              && r.state.meta.value.avgRating == s.meta.value.avgRating
  {
    if reply.Ok? then
      FilterIsSubsequence(Not(HasId(id)), s.reviews);
      FilterPartition(HasId(id), s.reviews);
      var meta := match s.meta
        case None => None
        case Some(m) => Some(m.(total := if m.total - 1 > 0 then m.total - 1 else 0));
      DeleteRun(s.(reviews := Filter(Not(HasId(id)), s.reviews), meta := meta), true)
    else DeleteRun(s, false)
  }

  /**
   * Submitting a review with a new id and then deleting it restores the
   * list and the total (the average, which the deletion does not revisit,
   * may differ).
   */
  lemma SubmitThenDeleteRestores(s: ReviewsState, input: SubmitInput, review: Review)
    requires forall k :: 0 <= k < |s.reviews| ==> s.reviews[k].id != review.id
    ensures var after := DeleteReview(Submit(s, input, Ok(review)).state, review.id, Ok(())).state;
            after.reviews == s.reviews
            && (after.meta.Some? <==> s.meta.Some?)
            && (s.meta.Some? ==> after.meta.value.total == s.meta.value.total)
  {
    var submitted := Submit(s, input, Ok(review)).state;
    assert submitted.reviews == [review] + s.reviews;
    FilterKeepsAll(Not(HasId(review.id)), s.reviews);
    assert Filter(Not(HasId(review.id)), [review] + s.reviews) == Filter(Not(HasId(review.id)), s.reviews);
  }
}
