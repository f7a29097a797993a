/** `fetchReviews` and `submitReview` of `src/lib/api/reviews.ts`: rows of
    the `reviews` table mapped to the site's `Review` shape. Query results
    and errors are parameters. */
module ReviewsApi {
  import opened Wrappers
  import opened Text
  import opened Backend

  const REVIEW_NAME_LIMIT: nat := 200
  const REVIEW_TEXT_LIMIT: nat := 5000

  /** A row of `reviews` as selected; a `null` helpful count is `None`. */
  datatype ReviewRow = ReviewRow(id: string, name: string, service: string, rating: int,
                                 text: string, helpful: Option<int>, createdAt: string)

  /** `Review` of `src/lib/types.ts`. */
  datatype Review = Review(id: string, name: string, service: string, rating: int,
                           date: string, text: string, helpful: int)

  /** The row mapping both functions share: the date is the part of the
      timestamp before its first `T`, a `null` helpful count is 0, the rest
      is copied. */
  function MapRow(row: ReviewRow): (r: Review)
    ensures r.id == row.id && r.name == row.name && r.service == row.service
    ensures r.rating == row.rating && r.text == row.text
    ensures r.date <= row.createdAt && 'T' !in r.date
    ensures |r.date| < |row.createdAt| ==> row.createdAt[|r.date|] == 'T'
    ensures r.helpful == (if row.helpful.Some? then row.helpful.value else 0)
  {
    Review(row.id, row.name, row.service, row.rating, Before(row.createdAt, 'T'), row.text,
           row.helpful.GetOr(0))
  }

  /** An ISO timestamp `date + "T" + time` yields `date`. */
  lemma {:induction false} DateOfTimestamp(date: string, time: string)
    requires 'T' !in date
    ensures Before(date + "T" + time, 'T') == date
  {
    var s := date + "T" + time;
    assert s[|date|] == 'T' && s[..|date|] == date;
    IndexOfFirst(s, 'T', |date|);
  }

  /** A timestamp without `T` is kept whole. */
  lemma DateWithoutTime(s: string)
    requires 'T' !in s
    ensures Before(s, 'T') == s
  {
  }

  /** `rows.map(MapRow)`: one review per row, in row order. */
  function MapRows(rows: seq<ReviewRow>): (r: seq<Review>)
    ensures |r| == |rows|
    ensures forall i :: 0 <= i < |rows| ==> r[i] == MapRow(rows[i])
  {
    if rows == [] then [] else [MapRow(rows[0])] + MapRows(rows[1..])
  }

  /** `fetchReviews`: an error is swallowed into `[]`, a `null` result is
      `[]`, anything else is mapped row by row. */
  function FetchReviews(data: Option<seq<ReviewRow>>, error: Option<BackendError>): (r: seq<Review>)
    ensures error.Some? ==> r == []
    ensures error.None? && data.None? ==> r == []
    ensures error.None? && data.Some? ==> r == MapRows(data.value)
  {
    if error.Some? then [] else MapRows(data.GetOr([]))
  }

  /** `SubmitReviewInput` */
  datatype ReviewInput = ReviewInput(name: string, service: string, rating: int, text: string)

  /** The row `submitReview` inserts. */
  datatype ReviewInsert = ReviewInsert(name: string, service: string, rating: int, text: string)

  /** The inserted row: name and text trimmed and cut, service and rating
      as given. */
  function ReviewPayload(input: ReviewInput): (row: ReviewInsert)
    ensures row.name == Clip(input.name, REVIEW_NAME_LIMIT) && row.text == Clip(input.text, REVIEW_TEXT_LIMIT)
    ensures |row.name| <= REVIEW_NAME_LIMIT && row.name <= Trim(input.name)
    ensures |row.text| <= REVIEW_TEXT_LIMIT && row.text <= Trim(input.text)
    ensures row.service == input.service && row.rating == input.rating
  {
    ReviewInsert(Clip(input.name, REVIEW_NAME_LIMIT), input.service, input.rating,
                 Clip(input.text, REVIEW_TEXT_LIMIT))
  }

  /** What `submitReview` returns, with the row it inserted. */
  datatype SubmitReviewResult = SubmitReviewResult(inserted: ReviewInsert, data: Option<Review>,
                                                   error: Option<BackendError>)

  /** `submitReview`: a backend error comes back as it is, with no data;
      otherwise the returned row, if any, is mapped and the error is
      `null`. */
  function SubmitReview(input: ReviewInput, error: Option<BackendError>, returned: Option<ReviewRow>)
    : (r: SubmitReviewResult)
    ensures r.inserted == ReviewPayload(input)
    ensures r.error == error
    ensures error.Some? ==> r.data.None?
    ensures error.None? ==> (r.data.Some? <==> returned.Some?)
    ensures error.None? && returned.Some? ==> r.data == Some(MapRow(returned.value))
  {
    if error.Some? then SubmitReviewResult(ReviewPayload(input), None, error)
    else SubmitReviewResult(ReviewPayload(input),
                            if returned.Some? then Some(MapRow(returned.value)) else None, None)
  }

  /** Reading swallows errors while writing surfaces them: the same backend
      error gives an empty list on a fetch and comes back unchanged from a
      submit. */
  lemma ReadSwallowsWriteSurfaces(input: ReviewInput, e: BackendError, data: Option<seq<ReviewRow>>,
                                  returned: Option<ReviewRow>)
    ensures FetchReviews(data, Some(e)) == []
    ensures SubmitReview(input, Some(e), returned).error == Some(e)
    ensures SubmitReview(input, Some(e), returned).data == None
  {
  }

  /** A review just submitted reads back as a fetch of that one row would. */
  lemma SubmitMapsLikeFetch(input: ReviewInput, row: ReviewRow)
    ensures SubmitReview(input, None, Some(row)).data == Some(FetchReviews(Some([row]), None)[0])
  {
  }
}
