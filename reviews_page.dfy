/** The reviews section of `src/components/Reviews.tsx`: the service filter,
    pagination by six, the "helpful" marks and their persistence, and the
    fetch/submit cycle against the `reviews` table. The pure rules
    (`FormatServiceName`, `Toggle`, `ByService`, `Visible`, `Persist`) are
    shared with the older `Reviews.js` model. */
module ReviewsPage {
  import opened Wrappers
  import opened Text
  import opened Backend
  import opened ReviewsApi

  /** The page size: the first page, and each "Load More Reviews". */
  const PAGE: nat := 6

  // ---------------------------------------------------------------------
  // Service names

  /** `word.charAt(0).toUpperCase() + word.slice(1)`; the empty word stays
      empty. */
  function Capitalize(w: string): (r: string)
    ensures |r| == |w|
    ensures w != [] ==> r[0] == UpperChar(w[0]) && r[1..] == w[1..]
  {
    if w == [] then [] else [UpperChar(w[0])] + w[1..]
  }

  /** `words.map(capitalize)` */
  function CapitalizeAll(ws: seq<string>): (r: seq<string>)
    ensures |r| == |ws|
    ensures forall i :: 0 <= i < |ws| ==> r[i] == Capitalize(ws[i])
  {
    if ws == [] then [] else [Capitalize(ws[0])] + CapitalizeAll(ws[1..])
  }

  /** `formatServiceName`: the `-`-separated words capitalised, joined with
      spaces, and " Remodeling" appended. */
  function FormatServiceName(service: string): string {
    Join(CapitalizeAll(Split(service, '-')), " ") + " Remodeling"
  }

  /** Capitalising every part and joining with a one-character separator
      keeps the joined length. */
  lemma {:induction false} JoinCapitalizedLength(parts: seq<string>, c: char)
    ensures |Join(CapitalizeAll(parts), " ")| == |Join(parts, [c])|
  {
    if |parts| > 1 {
      var caps := CapitalizeAll(parts);
      assert caps[1..] == CapitalizeAll(parts[1..]);
      JoinCapitalizedLength(parts[1..], c);
    }
  }

  /** Every character of the service is kept, one for one (a `-` becomes a
      space, a first letter its capital), and " Remodeling" is appended. */
  lemma ServiceNameLength(service: string)
    ensures |FormatServiceName(service)| == |service| + |" Remodeling"|
    ensures " Remodeling" <= FormatServiceName(service)[|service|..]
  {
    JoinCapitalizedLength(Split(service, '-'), '-');
    JoinSplit(service, '-');
  }

  /** A service without `-` is one capitalised word. */
  lemma OneWordService(w: string)
    requires '-' !in w
    ensures FormatServiceName(w) == Capitalize(w) + " Remodeling"
  {
    assert Split(w, '-') == [w];
  }

  /** A two-word service such as `living-room` reads "Living Room
      Remodeling". */
  lemma TwoWordService(a: string, b: string)
    requires '-' !in a && '-' !in b
    ensures FormatServiceName(a + "-" + b) == Capitalize(a) + " " + Capitalize(b) + " Remodeling"
  {
    var s := a + "-" + b;
    assert s[|a|] == '-' && s[..|a|] == a;
    IndexOfFirst(s, '-', |a|);
    assert s[|a| + 1..] == b;
    assert Split(b, '-') == [b];
    assert Split(s, '-') == [a, b];
    var caps := CapitalizeAll([a, b]);
    assert caps == [Capitalize(a), Capitalize(b)];
    assert Join(caps, " ") == Capitalize(a) + " " + Join(caps[1..], " ");
  }

  // ---------------------------------------------------------------------
  // Helpful marks

  /** `Record<string, boolean>` keyed by review id. */
  type HelpfulMap = map<string, bool>

  /** `helpfulClicks[id]` is truthy. */
  predicate IsMarked(m: HelpfulMap, id: string) {
    id in m && m[id]
  }

  /** `toggleHelpful`: a marked id is deleted from the map, any other id is
      set to `true`. */
  function Toggle(m: HelpfulMap, id: string): (r: HelpfulMap)
    ensures IsMarked(r, id) <==> !IsMarked(m, id)
    ensures forall k :: k != id ==> (k in r <==> k in m)
    ensures forall k :: k != id && k in m ==> r[k] == m[k]
  {
    if IsMarked(m, id) then m - {id} else m[id := true]
  }

  /** Toggling twice restores the map, as long as the id was not stored as
      `false`. */
  lemma ToggleTwice(m: HelpfulMap, id: string)
    requires id in m ==> m[id]
    ensures Toggle(Toggle(m, id), id) == m
  {
    if IsMarked(m, id) {
      assert Toggle(m, id) == m - {id};
      assert Toggle(m - {id}, id) == m - {id} + map[id := true];
    }
  }

  /** A `false` mark (one only a saved map can carry) is turned into `true`
      and then deleted: two toggles remove the key. */
  lemma ToggleTwiceDropsFalseMark(m: HelpfulMap, id: string)
    requires id in m && !m[id]
    ensures Toggle(Toggle(m, id), id) == m - {id}
  {
  }

  /** The count a review shows: its stored count plus one when marked. */
  function HelpfulCount(r: Review, m: HelpfulMap): (n: int)
    ensures IsMarked(m, r.id) ==> n == r.helpful + 1
    ensures !IsMarked(m, r.id) ==> n == r.helpful
  {
    r.helpful + (if IsMarked(m, r.id) then 1 else 0)
  }

  /** Toggling one review moves its count by exactly one and leaves every
      other review's count alone. */
  lemma ToggleMovesOneCount(m: HelpfulMap, r: Review, other: Review)
    requires other.id != r.id
    ensures HelpfulCount(r, Toggle(m, r.id)) - HelpfulCount(r, m)
            == (if IsMarked(m, r.id) then -1 else 1)
    ensures HelpfulCount(other, Toggle(m, r.id)) == HelpfulCount(other, m)
  {
  }

  // ---------------------------------------------------------------------
  // Persistence of the marks

  /** The `helpfulClicks` item of local storage. */
  datatype Stored = NothingStored | Unreadable | Saved(clicks: HelpfulMap)

  /** The persistence effect: the map is written only when it has a key. */
  function Persist(m: HelpfulMap, stored: Stored): (r: Stored)
    ensures |m| > 0 ==> r == Saved(m)
    ensures |m| == 0 ==> r == stored
  {
    if |m| > 0 then Saved(m) else stored
  }

  /** The load effect: a saved map replaces the marks; nothing saved, or an
      unparseable item, leaves them as they are. */
  function Restore(m: HelpfulMap, stored: Stored): (r: HelpfulMap)
    ensures stored.Saved? ==> r == stored.clicks
    ensures !stored.Saved? ==> r == m
  {
    if stored.Saved? then stored.clicks else m
  }

  /** Un-marking the only marked review is not written back: after a
      reload the review is marked again. */
  lemma UnmarkLastIsForgotten(id: string)
    ensures Toggle(map[id := true], id) == map[]
    ensures Persist(Toggle(map[id := true], id), Persist(map[id := true], NothingStored))
            == Saved(map[id := true])
    ensures IsMarked(Restore(map[], Persist(Toggle(map[id := true], id),
                                            Persist(map[id := true], NothingStored))), id)
  {
    assert Toggle(map[id := true], id) == map[id := true] - {id};
    assert map[id := true] - {id} == map[];
    assert |map[id := true]| == 1;
  }

  /** With at least one other mark left the storage follows the map. */
  lemma UnmarkWithOthersIsSaved(m: HelpfulMap, id: string, other: string)
    requires other != id && other in m
    ensures Persist(Toggle(m, id), Saved(m)) == Saved(Toggle(m, id))
  {
    assert other in Toggle(m, id);
  }

  // ---------------------------------------------------------------------
  // Filter and pagination

  /** The filter buttons: every review, or one service. */
  datatype ServiceFilter = AllServices | OnlyService(service: string)

  /** `allReviews.filter((r) => r.service === service)` */
  function ByService(rs: seq<Review>, service: string): (r: seq<Review>)
    ensures |r| <= |rs|
    ensures forall x :: x in r <==> x in rs && x.service == service
  {
    if rs == [] then []
    else (if rs[0].service == service then [rs[0]] else []) + ByService(rs[1..], service)
  }

  /** The filter keeps the original order: filtering a concatenation
      filters each part in place. */
  lemma {:induction false} ByServiceConcat(a: seq<Review>, b: seq<Review>, service: string)
    ensures ByService(a + b, service) == ByService(a, service) + ByService(b, service)
  {
    if a != [] {
      ConsConcat(a, b);
      ByServiceConcat(a[1..], b, service);
      var head := if a[0].service == service then [a[0]] else [];
      AppendAssoc(head, ByService(a[1..], service), ByService(b, service));
    } else {
      assert a + b == b;
    }
  }

  /** A list all of one service passes whole; one with none of it passes
      nothing. */
  lemma {:induction false} ByServiceBounds(rs: seq<Review>, service: string)
    ensures (forall i :: 0 <= i < |rs| ==> rs[i].service == service) ==> ByService(rs, service) == rs
    ensures (forall i :: 0 <= i < |rs| ==> rs[i].service != service) ==> ByService(rs, service) == []
  {
    if rs != [] {
      ByServiceBounds(rs[1..], service);
      assert forall i :: 0 <= i < |rs| - 1 ==> rs[1..][i] == rs[i + 1];
    }
  }

  /** `filteredReviews` */
  function Filtered(rs: seq<Review>, f: ServiceFilter): (r: seq<Review>)
    ensures f.AllServices? ==> r == rs
    ensures f.OnlyService? ==> r == ByService(rs, f.service)
  {
    match f
    case AllServices => rs
    case OnlyService(s) => ByService(rs, s)
  }

  /** `filteredReviews.slice(0, displayedReviews)` */
  function Visible<T>(fs: seq<T>, displayed: nat): (r: seq<T>)
    ensures r <= fs
    ensures |r| == if |fs| <= displayed then |fs| else displayed
  {
    if |fs| <= displayed then fs else fs[..displayed]
  }

  /** `hasMore` */
  predicate HasMore<T>(fs: seq<T>, displayed: nat) {
    |fs| > displayed
  }

  /** "Load More" is offered exactly when some filtered review is hidden. */
  lemma HasMoreIffHidden<T>(fs: seq<T>, displayed: nat)
    ensures HasMore(fs, displayed) <==> |Visible(fs, displayed)| < |fs|
  {
  }

  /** Loading more extends the shown list and never drops what was shown. */
  lemma LoadMoreExtends<T>(fs: seq<T>, displayed: nat)
    ensures Visible(fs, displayed) <= Visible(fs, displayed + PAGE)
    ensures HasMore(fs, displayed) ==> |Visible(fs, displayed + PAGE)| > |Visible(fs, displayed)|
  {
  }

  /** After `k` loads the first `6 + 6k` filtered reviews are shown, so
      enough loads show them all. */
  lemma {:induction false} LoadsReachEnd<T>(fs: seq<T>, k: nat)
    requires |fs| <= PAGE * (k + 1)
    ensures Visible(fs, PAGE * (k + 1)) == fs && !HasMore(fs, PAGE * (k + 1))
  {
  }

  // ---------------------------------------------------------------------
  // Page state

  /** `ReviewFormData`: the rating is 0 until a star is clicked. */
  datatype ReviewForm = ReviewForm(name: string, service: string, rating: int, text: string)

  const INITIAL_FORM: ReviewForm := ReviewForm("", "", 0, "")

  /** The text inputs of the modal form, by their `name` attribute. */
  datatype FormField = NameInput | ServiceInput | TextInput

  function SetInput(d: ReviewForm, f: FormField, v: string): (r: ReviewForm)
    ensures r.rating == d.rating
    ensures r.name == (if f == NameInput then v else d.name)
    ensures r.service == (if f == ServiceInput then v else d.service)
    ensures r.text == (if f == TextInput then v else d.text)
  {
    match f
    case NameInput => d.(name := v)
    case ServiceInput => d.(service := v)
    case TextInput => d.(text := v)
  }

  /** Every state variable of the component, with the stored marks. */
  datatype PageState = PageState(reviews: seq<Review>, loading: bool, filter: ServiceFilter,
                                 displayed: nat, helpful: HelpfulMap, stored: Stored,
                                 isModalOpen: bool, form: ReviewForm, showSuccess: bool)
  {
    /** `reviewsToShow` */
    function Shown(): seq<Review> {
      Visible(Filtered(reviews, filter), displayed)
    }
  }

  function InitialState(stored: Stored): PageState {
    PageState([], true, AllServices, PAGE, map[], stored, false, INITIAL_FORM, false)
  }

  /** A filter button: that filter, back to the first page. */
  function SelectFilter(s: PageState, f: ServiceFilter): PageState {
    s.(filter := f, displayed := PAGE)
  }

  /** A filter button shows the first six reviews of that service in page
      order, and offers more exactly when there are more than six. */
  lemma SelectFilterShowsFirstPage(s: PageState, service: string)
    ensures SelectFilter(s, OnlyService(service)).Shown() == Visible(ByService(s.reviews, service), PAGE)
    ensures forall x :: x in SelectFilter(s, OnlyService(service)).Shown() ==> x.service == service
    ensures HasMore(Filtered(s.reviews, OnlyService(service)), SelectFilter(s, OnlyService(service)).displayed)
            <==> |ByService(s.reviews, service)| > PAGE
  {
    var r := SelectFilter(s, OnlyService(service)).Shown();
    forall x | x in r ensures x.service == service {
      assert x in ByService(s.reviews, service);
    }
  }

  function LoadMore(s: PageState): PageState {
    s.(displayed := s.displayed + PAGE)
  }

  /** A click on "Helpful": the mark flips and the persistence effect runs. */
  function ClickHelpful(s: PageState, id: string): PageState {
    var m := Toggle(s.helpful, id);
    s.(helpful := m, stored := Persist(m, s.stored))
  }

  /** The mount effect that reads the saved marks. */
  function LoadSaved(s: PageState): PageState {
    s.(helpful := Restore(s.helpful, s.stored))
  }

  /** `fetchReviews` followed by `setLoading(false)`: an error keeps the
      list, otherwise the rows are mapped as `fetchReviews` of the data
      layer maps them. */
  function FetchDone(s: PageState, data: Option<seq<ReviewRow>>, error: Option<BackendError>): PageState {
    if error.Some? then s.(loading := false)
    else s.(reviews := MapRows(data.GetOr([])), loading := false)
  }

  /** A failed fetch keeps the old reviews where the data layer's
      `fetchReviews` would give `[]`; a successful one agrees with it. */
  lemma FetchDoneAgainstLibrary(s: PageState, data: Option<seq<ReviewRow>>, error: Option<BackendError>)
    ensures !FetchDone(s, data, error).loading
    ensures error.Some? ==> FetchDone(s, data, error).reviews == s.reviews
    ensures error.None? ==> FetchDone(s, data, error).reviews == FetchReviews(data, error)
  {
  }

  function OpenModal(s: PageState): PageState {
    s.(isModalOpen := true)
  }

  /** `closeModal`, also bound to Escape and to a click on the backdrop. */
  function CloseModal(s: PageState): PageState {
    s.(isModalOpen := false, form := INITIAL_FORM)
  }

  function Input(s: PageState, f: FormField, v: string): PageState {
    s.(form := SetInput(s.form, f, v))
  }

  function StarClick(s: PageState, rating: int): PageState {
    s.(form := s.form.(rating := rating))
  }

  /** The row `handleSubmit` inserts: name and text trimmed, no length cut. */
  function FormPayload(d: ReviewForm): ReviewInsert {
    ReviewInsert(Trim(d.name), d.service, d.rating, Trim(d.text))
  }

  /** The start of `handleSubmit`: without a rating nothing is inserted. */
  function SubmitRequest(s: PageState): (insert: Option<ReviewInsert>)
    ensures insert.None? <==> s.form.rating == 0
    ensures insert.Some? ==> insert.value.rating == s.form.rating && insert.value.service == s.form.service
    ensures insert.Some? ==> insert.value.name == Trim(s.form.name) && insert.value.text == Trim(s.form.text)
  {
    if s.form.rating == 0 then None else Some(FormPayload(s.form))
  }

  /** The page's insert agrees with `submitReview` of the data layer while
      the trimmed name and text are within its limits, and keeps them whole
      past those limits. */
  lemma PayloadAgainstLibrary(d: ReviewForm)
    ensures |Trim(d.name)| <= REVIEW_NAME_LIMIT && |Trim(d.text)| <= REVIEW_TEXT_LIMIT ==>
              FormPayload(d) == ReviewPayload(ReviewInput(d.name, d.service, d.rating, d.text))
    ensures |Trim(d.name)| > REVIEW_NAME_LIMIT ==>
              FormPayload(d).name != ReviewPayload(ReviewInput(d.name, d.service, d.rating, d.text)).name
  {
  }

  /** The end of `handleSubmit`. An error, or a missing returned row, is
      reported with an alert and changes nothing; a returned row is mapped
      and put first, the modal closes with an empty form, the success
      banner shows and the first page is shown again. */
  function SubmitDone(s: PageState, error: Option<BackendError>, row: Option<ReviewRow>): PageState {
    if error.Some? || row.None? then s
    else s.(reviews := [MapRow(row.value)] + s.reviews, showSuccess := true,
            isModalOpen := false, form := INITIAL_FORM, displayed := PAGE)
  }

  /** After a successful submit the new review heads the list, and, under
      "All Reviews" or its own service's filter, the page too. */
  lemma SubmittedReviewShownFirst(s: PageState, row: ReviewRow)
    requires s.filter.AllServices? || s.filter == OnlyService(row.service)
    ensures SubmitDone(s, None, Some(row)).reviews[0] == MapRow(row)
    ensures SubmitDone(s, None, Some(row)).Shown()[0] == MapRow(row)
  {
    var t := SubmitDone(s, None, Some(row));
    if s.filter.OnlyService? {
      ByServiceConcat([MapRow(row)], s.reviews, row.service);
      assert ByService([MapRow(row)], row.service) == [MapRow(row)];
    }
  }

  /** A failed submit keeps everything, the typed form included. */
  lemma FailedSubmitKeepsForm(s: PageState, e: BackendError, row: Option<ReviewRow>)
    ensures SubmitDone(s, Some(e), row) == s
    ensures SubmitDone(s, None, None) == s
  {
  }

  /** The success timer. */
  function HideSuccess(s: PageState): PageState {
    s.(showSuccess := false)
  }

  // ---------------------------------------------------------------------
  // The component

  class ReviewsView {
    var reviews: seq<Review>
    var loading: bool
    var filter: ServiceFilter
    var displayed: nat
    var helpful: HelpfulMap
    var stored: Stored
    var isModalOpen: bool
    var form: ReviewForm
    var showSuccess: bool

    function State(): PageState
      reads this
    {
      PageState(reviews, loading, filter, displayed, helpful, stored, isModalOpen, form, showSuccess)
    }

    constructor (saved: Stored)
      ensures State() == InitialState(saved)
    {
      reviews, loading, filter, displayed := [], true, AllServices, PAGE;
      helpful, stored := map[], saved;
      isModalOpen, form, showSuccess := false, INITIAL_FORM, false;
    }

    method SetFilter(f: ServiceFilter)
      modifies this
      ensures State() == SelectFilter(old(State()), f)
    {
      filter := f;
      displayed := PAGE;
    }

    method LoadMoreReviews()
      modifies this
      ensures State() == LoadMore(old(State()))
    {
      displayed := displayed + PAGE;
    }

    method ToggleHelpful(id: string)
      modifies this
      ensures State() == ClickHelpful(old(State()), id)
    {
      helpful := Toggle(helpful, id);
      if |helpful| > 0 {
        stored := Saved(helpful);
      }
    }

    method ReadSaved()
      modifies this
      ensures State() == LoadSaved(old(State()))
    {
      if stored.Saved? {
        helpful := stored.clicks;
      }
    }

    method FetchComplete(data: Option<seq<ReviewRow>>, error: Option<BackendError>)
      modifies this
      ensures State() == FetchDone(old(State()), data, error)
    {
      if error.None? {
        reviews := MapRows(data.GetOr([]));
      }
      loading := false;
    }

    method Open()
      modifies this
      ensures State() == OpenModal(old(State()))
    {
      isModalOpen := true;
    }

    method Close()
      modifies this
      ensures State() == CloseModal(old(State()))
    {
      isModalOpen := false;
      form := INITIAL_FORM;
    }

    method HandleInputChange(f: FormField, v: string)
      modifies this
      ensures State() == Input(old(State()), f, v)
    {
      form := SetInput(form, f, v);
    }

    method HandleStarClick(rating: int)
      modifies this
      ensures State() == StarClick(old(State()), rating)
    {
      form := form.(rating := rating);
    }

    /** The synchronous part of `handleSubmit`: the row to insert, if any. */
    method SubmitStart() returns (insert: Option<ReviewInsert>)
      ensures insert == SubmitRequest(State())
    {
      if form.rating == 0 {
        insert := None;
      } else {
        insert := Some(ReviewInsert(Trim(form.name), form.service, form.rating, Trim(form.text)));
      }
    }

    method SubmitComplete(error: Option<BackendError>, row: Option<ReviewRow>)
      modifies this
      ensures State() == SubmitDone(old(State()), error, row)
    {
      if error.None? && row.Some? {
        reviews := [MapRow(row.value)] + reviews;
        showSuccess := true;
        Close();
        displayed := PAGE;
      }
    }

    method SuccessTimeout()
      modifies this
      ensures State() == HideSuccess(old(State()))
    {
      showSuccess := false;
    }
  }
}
