/** The older reviews section `src/components/Reviews.js`: twelve built-in
    reviews behind the visitor's own, kept in local storage; no backend.
    Service names, the helpful marks, the filter and the pagination follow
    the same rules as `Reviews.tsx` and reuse its definitions. */
module ReviewsLegacy {
  import opened Wrappers
  import opened Text
  import opened ReviewsApi
  import opened ReviewsPage

  /** The built-in reviews, ids `1` to `12` (object keys, so strings). */
  const STATIC_REVIEWS: seq<Review> := [
    Review("1", "Sarah Johnson", "kitchen", 5, "2025-01-15",
           "Absolutely amazing transformation! Our kitchen went from outdated to stunning. The team was professional, punctual, and the attention to detail was exceptional. Highly recommend!",
           24),
    Review("2", "Michael Chen", "basement", 5, "2025-01-10",
           "We couldn't be happier with our new basement entertainment room. They turned an unused space into the heart of our home. The quality of work exceeded our expectations.",
           18),
    Review("3", "Emily Rodriguez", "bathroom", 5, "2025-01-05",
           "Our master bathroom is now a spa-like retreat. The team was incredibly responsive and worked within our budget. They helped us choose materials and the result is breathtaking!",
           31),
    Review("4", "David Thompson", "living-room", 4, "2024-12-28",
           "Great experience overall. The living room remodel opened up our space beautifully. Minor delays due to material shortages, but they kept us informed every step of the way.",
           12),
    Review("5", "Jennifer Martinez", "kitchen", 5, "2024-12-20",
           "From design to completion, everything was seamless. Our new kitchen is functional and gorgeous. The custom cabinets are exactly what we wanted!",
           27),
    Review("6", "Robert Williams", "basement", 5, "2024-12-15",
           "Converted our basement into a home office and guest suite. The craftsmanship is top-notch. Very satisfied with the entire process and would definitely hire again.",
           15),
    Review("7", "Lisa Anderson", "bathroom", 4, "2024-12-10",
           "Beautiful bathroom renovation. The walk-in shower is perfect. Only giving 4 stars because it took a week longer than expected, but the quality makes up for it.",
           9),
    Review("8", "James Parker", "kitchen", 5, "2024-12-05",
           "Incredible work! They completely transformed our dated kitchen. The quartz countertops and modern fixtures are stunning. Professional team from start to finish.",
           22),
    Review("9", "Amanda White", "living-room", 5, "2024-11-28",
           "Our living room looks like it's from a magazine! The built-in entertainment center and new hardwood floors are perfect. Couldn't be happier!",
           19),
    Review("10", "Christopher Lee", "basement", 4, "2024-11-20",
           "Good quality work on our basement finishing. The space is much more usable now. Team was friendly and cleaned up well after each day. Would recommend.",
           11),
    Review("11", "Michelle Taylor", "bathroom", 5, "2024-11-15",
           "Absolutely love our new bathroom! The tile work is flawless and the dual vanities are exactly what we needed. Very professional and respectful of our home.",
           16),
    Review("12", "Daniel Brown", "kitchen", 5, "2024-11-10",
           "Best decision we made was hiring this team for our kitchen remodel. They listened to our needs and delivered beyond expectations. The island is the centerpiece of our home now!",
           25)

  ]

  /** The `userReviews` item of local storage. */
  datatype SavedReviews = NoReviewsSaved | UnreadableReviews | ReviewsSaved(items: seq<Review>)

  /** `[...userReviews, ...reviews]`: the visitor's reviews first. */
  function AllReviews(userReviews: seq<Review>): (r: seq<Review>)
    ensures |r| == |userReviews| + |STATIC_REVIEWS|
    ensures r[..|userReviews|] == userReviews && r[|userReviews|..] == STATIC_REVIEWS
  {
    userReviews + STATIC_REVIEWS
  }

  /** The `total` of `calculateOverallRating`: the list length, or 127
      for an empty list. */
  function OverallTotal(all: seq<Review>): (n: nat)
    ensures |all| > 0 ==> n == |all|
    ensures |all| == 0 ==> n == 127
  {
    if |all| == 0 then 127 else |all|
  }

  /** The built-in list has twelve reviews, so the fallback total is never
      used: the total counts the visitor's reviews plus twelve. */
  lemma TotalCountsEveryReview(userReviews: seq<Review>)
    ensures |STATIC_REVIEWS| == 12
    ensures OverallTotal(AllReviews(userReviews)) == |userReviews| + 12
  {
  }

  /** A service filter keeps the visitor's matching reviews ahead of the
      built-in ones. */
  lemma FilterKeepsUserReviewsFirst(userReviews: seq<Review>, service: string)
    ensures Filtered(AllReviews(userReviews), OnlyService(service))
            == ByService(userReviews, service) + ByService(STATIC_REVIEWS, service)
  {
    ByServiceConcat(userReviews, STATIC_REVIEWS, service);
  }

  /** Every state variable of the component, with the two stored items. */
  datatype LegacyReviewsState = LegacyReviewsState(
    filter: ServiceFilter, displayed: nat, userReviews: seq<Review>, helpful: HelpfulMap,
    isModalOpen: bool, form: ReviewForm, showSuccess: bool,
    savedReviews: SavedReviews, savedHelpful: Stored)
  {
    /** `reviewsToShow` */
    function Shown(): seq<Review> {
      Visible(Filtered(AllReviews(userReviews), filter), displayed)
    }
  }

  function LegacyInitial(savedReviews: SavedReviews, savedHelpful: Stored): LegacyReviewsState {
    LegacyReviewsState(AllServices, PAGE, [], map[], false, INITIAL_FORM, false, savedReviews, savedHelpful)
  }

  /** The mount effect: saved reviews and saved marks replace the empty
      ones; a missing or unparseable item is skipped. */
  function LoadSavedItems(s: LegacyReviewsState): LegacyReviewsState {
    s.(userReviews := if s.savedReviews.ReviewsSaved? then s.savedReviews.items else s.userReviews,
       helpful := Restore(s.helpful, s.savedHelpful))
  }

  function LegacySelectFilter(s: LegacyReviewsState, f: ServiceFilter): LegacyReviewsState {
    s.(filter := f, displayed := PAGE)
  }

  function LegacyLoadMore(s: LegacyReviewsState): LegacyReviewsState {
    s.(displayed := s.displayed + PAGE)
  }

  function LegacyClickHelpful(s: LegacyReviewsState, id: string): LegacyReviewsState {
    var m := Toggle(s.helpful, id);
    s.(helpful := m, savedHelpful := Persist(m, s.savedHelpful))
  }

  /** `newReview`: the form as typed (nothing trimmed), the date part of the
      current ISO timestamp, no helpful votes. */
  function NewReview(form: ReviewForm, id: string, isoNow: string): (r: Review)
    ensures r.id == id && r.name == form.name && r.service == form.service
    ensures r.rating == form.rating && r.text == form.text && r.helpful == 0
    ensures r.date <= isoNow && 'T' !in r.date
  {
    Review(id, form.name, form.service, form.rating, Before(isoNow, 'T'), form.text, 0)
  }

  /** `handleSubmit` with `Date.now()` as `id` and the current ISO time as
      `isoNow`: no rating means no review; otherwise the review is put first,
      saved at once, and the success banner shows. The form and the modal
      are left for the timer. */
  function LegacySubmit(s: LegacyReviewsState, id: string, isoNow: string): LegacyReviewsState {
    if s.form.rating == 0 then s
    else
      var updated := [NewReview(s.form, id, isoNow)] + s.userReviews;
      s.(userReviews := updated, showSuccess := true, savedReviews := ReviewsSaved(updated))
  }

  /** The timer set by a submit. */
  function LegacySubmitTimer(s: LegacyReviewsState): LegacyReviewsState {
    s.(showSuccess := false, isModalOpen := false, form := INITIAL_FORM, displayed := PAGE)
  }

  /** Without a rating nothing changes; with one, exactly one review is
      added, in front, and the stored list is the new list. */
  lemma LegacySubmitGate(s: LegacyReviewsState, id: string, isoNow: string)
    ensures s.form.rating == 0 ==> LegacySubmit(s, id, isoNow) == s
    ensures s.form.rating != 0 ==>
      var t := LegacySubmit(s, id, isoNow);
      |t.userReviews| == |s.userReviews| + 1 && t.userReviews[1..] == s.userReviews &&
      t.savedReviews == ReviewsSaved(t.userReviews) && t.showSuccess
  {
  }

  /** Submitted at `date + "T" + time`, the review is dated `date`, and under
      "All Reviews" it is the first one shown (the page size never drops
      below six). */
  lemma SubmittedReviewLeads(s: LegacyReviewsState, id: string, date: string, time: string)
    requires s.form.rating != 0 && 'T' !in date && s.filter.AllServices?
    requires s.displayed >= PAGE
    ensures LegacySubmit(s, id, date + "T" + time).userReviews[0].date == date
    ensures LegacySubmit(s, id, date + "T" + time).Shown()[0]
            == NewReview(s.form, id, date + "T" + time)
  {
    DateOfTimestamp(date, time);
    var t := LegacySubmit(s, id, date + "T" + time);
    assert AllReviews(t.userReviews)[0] == t.userReviews[0];
    assert t.Shown()[0] == AllReviews(t.userReviews)[0];
  }

  /** The form is cleared only by the timer, so a second submit before it
      fires adds the same review again. */
  lemma SecondSubmitBeforeTimerAddsAgain(s: LegacyReviewsState, id1: string, id2: string, isoNow: string)
    requires s.form.rating != 0
    ensures var t := LegacySubmit(LegacySubmit(s, id1, isoNow), id2, isoNow);
      t.userReviews == [NewReview(s.form, id2, isoNow), NewReview(s.form, id1, isoNow)] + s.userReviews
  {
  }

  /** After the timer the form is empty with rating 0, the modal is closed
      and the first page is shown; the new review stays. */
  lemma SubmitCycleResets(s: LegacyReviewsState, id: string, isoNow: string)
    requires s.form.rating != 0
    ensures var t := LegacySubmitTimer(LegacySubmit(s, id, isoNow));
      t.form == INITIAL_FORM && t.form.rating == 0 && !t.isModalOpen && !t.showSuccess &&
      t.displayed == PAGE && t.userReviews == [NewReview(s.form, id, isoNow)] + s.userReviews
  {
  }

  /** The saved list is read back on the next mount. */
  lemma SubmittedReviewSurvivesReload(s: LegacyReviewsState, id: string, isoNow: string, saved: Stored)
    requires s.form.rating != 0
    ensures var t := LegacySubmit(s, id, isoNow);
      LoadSavedItems(LegacyInitial(t.savedReviews, saved)).userReviews == t.userReviews
  {
  }

  class LegacyReviews {
    var filter: ServiceFilter
    var displayed: nat
    var userReviews: seq<Review>
    var helpful: HelpfulMap
    var isModalOpen: bool
    var form: ReviewForm
    var showSuccess: bool
    var savedReviews: SavedReviews
    var savedHelpful: Stored

    function State(): LegacyReviewsState
      reads this
    {
      LegacyReviewsState(filter, displayed, userReviews, helpful, isModalOpen, form, showSuccess,
                         savedReviews, savedHelpful)
    }

    constructor (storedReviews: SavedReviews, storedHelpful: Stored)
      ensures State() == LegacyInitial(storedReviews, storedHelpful)
    {
      filter, displayed, userReviews, helpful := AllServices, PAGE, [], map[];
      isModalOpen, form, showSuccess := false, INITIAL_FORM, false;
      savedReviews, savedHelpful := storedReviews, storedHelpful;
    }

    method LoadSaved()
      modifies this
      ensures State() == LoadSavedItems(old(State()))
    {
      if savedReviews.ReviewsSaved? {
        userReviews := savedReviews.items;
      }
      if savedHelpful.Saved? {
        helpful := savedHelpful.clicks;
      }
    }

    method SetFilter(f: ServiceFilter)
      modifies this
      ensures State() == LegacySelectFilter(old(State()), f)
    {
      filter := f;
      displayed := PAGE;
    }

    method LoadMoreReviews()
      modifies this
      ensures State() == LegacyLoadMore(old(State()))
    {
      displayed := displayed + PAGE;
    }

    method ToggleHelpful(id: string)
      modifies this
      ensures State() == LegacyClickHelpful(old(State()), id)
    {
      helpful := Toggle(helpful, id);
      if |helpful| > 0 {
        savedHelpful := Saved(helpful);
      }
    }

    method OpenModal()
      modifies this
      ensures State() == old(State()).(isModalOpen := true)
    {
      isModalOpen := true;
    }

    /** `closeModal` and its `resetForm`. */
    method CloseModal()
      modifies this
      ensures State() == old(State()).(isModalOpen := false, form := INITIAL_FORM)
    {
      isModalOpen := false;
      form := INITIAL_FORM;
    }

    method HandleInputChange(f: FormField, v: string)
      modifies this
      ensures State() == old(State()).(form := SetInput(old(form), f, v))
    {
      form := SetInput(form, f, v);
    }

    method HandleStarClick(rating: int)
      modifies this
      ensures State() == old(State()).(form := old(form).(rating := rating))
    {
      form := form.(rating := rating);
    }

    /** Returns whether a review was added (and so a timer started). */
    method HandleSubmit(id: string, isoNow: string) returns (added: bool)
      modifies this
      ensures added <==> old(form).rating != 0
      ensures State() == LegacySubmit(old(State()), id, isoNow)
    {
      if form.rating == 0 {
        return false;
      }
      var updated := [NewReview(form, id, isoNow)] + userReviews;
      userReviews := updated;
      showSuccess := true;
      savedReviews := ReviewsSaved(updated);
      added := true;
    }

    method SubmitTimer()
      modifies this
      ensures State() == LegacySubmitTimer(old(State()))
    {
      showSuccess := false;
      CloseModal();
      displayed := PAGE;
    }
  }
}
