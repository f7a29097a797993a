/** The admin dashboard of `src/app/admin/page.tsx`: the star strip, the
    two-click confirmation before a delete, the expanded contact, and the
    sign-in and sign-out transitions. Backend answers are parameters; the
    deletes the page sends are kept in a log. */
module AdminDashboard {
  import opened Wrappers
  import opened Text
  import opened AdminAuth

  const FILLED: char := '★'
  const EMPTY: char := '☆'

  /** `generateStars`: five characters, position `i` filled exactly when
      `i < rating`. */
  function GenerateStars(rating: int): (r: string)
    ensures |r| == 5
    ensures forall i :: 0 <= i < 5 ==> (r[i] == FILLED <==> i < rating)
    ensures forall i :: 0 <= i < 5 ==> (r[i] == EMPTY <==> i >= rating)
  {
    seq(5, i => if i < rating then FILLED else EMPTY)
  }

  /** The number of filled stars: the rating, clamped to 0..5. */
  function Filled(rating: int): nat {
    if rating <= 0 then 0 else if rating >= 5 then 5 else rating
  }

  /** The strip is a run of filled stars followed by a run of empty ones,
      the first as long as the clamped rating. */
  lemma StarsAreTwoRuns(rating: int)
    ensures GenerateStars(rating) == seq(Filled(rating), _ => FILLED) + seq(5 - Filled(rating), _ => EMPTY)
  {
    var k := Filled(rating);
    var runs := seq(k, _ => FILLED) + seq(5 - k, _ => EMPTY);
    assert |runs| == 5;
    forall i | 0 <= i < 5 ensures GenerateStars(rating)[i] == runs[i] {
      if i < k {
        assert runs[i] == FILLED;
      } else {
        assert runs[i] == seq(5 - k, _ => EMPTY)[i - k];
      }
    }
  }

  /** No rating gives five empty stars and a full rating five filled ones;
      out-of-range ratings are clamped, never rejected. */
  lemma StarsAtTheEnds(low: int, high: int)
    requires low <= 0 && high >= 5
    ensures GenerateStars(low) == [EMPTY, EMPTY, EMPTY, EMPTY, EMPTY]
    ensures GenerateStars(high) == [FILLED, FILLED, FILLED, FILLED, FILLED]
  {
  }

  // ---------------------------------------------------------------------
  // Dashboard state

  /** The two lists a delete can target. */
  datatype Table = ContactSubmissions | ReviewsTable

  /** A `delete().eq('id', id)` sent to the backend. */
  datatype DeleteRequest = DeleteRequest(table: Table, id: string)

  /** The page's state variables that the modelled handlers touch. The two
      lists are kept by row id; the other columns are only displayed. The
      deletes sent so far are `deletes`, oldest first. */
  datatype DashboardState = DashboardState(
    session: Option<AdminSession>, loading: bool,
    loginEmail: string, loginPassword: string, loginError: Option<SignInError>, loginSubmitting: bool,
    contacts: seq<string>, reviews: seq<string>, contactsLoading: bool, reviewsLoading: bool,
    deletingId: Option<string>, confirmDeleteId: Option<string>, expandedContact: Option<string>,
    deletes: seq<DeleteRequest>)

  const DASHBOARD_INITIAL: DashboardState :=
    DashboardState(None, true, "", "", None, false, [], [], false, false, None, None, None, [])

  /** A click on Delete, or on "Yes, delete", of row `id` of `table` (both
      buttons call the same handler). Unless `id` is the pending one it
      only becomes pending; if it is, the mark is cleared, the row is marked
      as being deleted and one delete is sent. */
  function ClickDelete(s: DashboardState, table: Table, id: string): DashboardState {
    if s.confirmDeleteId != Some(id) then s.(confirmDeleteId := Some(id))
    else s.(deletingId := Some(id), confirmDeleteId := None,
            deletes := s.deletes + [DeleteRequest(table, id)])
  }

  /** The delete has answered and the list reload begins; its outcome is not
      looked at. */
  function StartReload(s: DashboardState, table: Table): DashboardState {
    match table
    case ContactSubmissions => s.(contactsLoading := true)
    case ReviewsTable => s.(reviewsLoading := true)
  }

  /** `loadContacts`/`loadReviews` done: the list is the rows returned, or
      empty for `null`. */
  function ListLoaded(s: DashboardState, table: Table, data: Option<seq<string>>): DashboardState {
    match table
    case ContactSubmissions => s.(contacts := data.GetOr([]), contactsLoading := false)
    case ReviewsTable => s.(reviews := data.GetOr([]), reviewsLoading := false)
  }

  /** The end of a delete: the reload is done and the row no longer shows
      as being deleted. */
  function DeleteDone(s: DashboardState, table: Table, data: Option<seq<string>>): DashboardState {
    ListLoaded(s, table, data).(deletingId := None)
  }

  /** Cancel */
  function CancelDelete(s: DashboardState): DashboardState {
    s.(confirmDeleteId := None)
  }

  /** The first click on a row that is not pending sends nothing: it only
      records that row as pending, moving the mark away from any other. */
  lemma FirstClickOnlyMarks(s: DashboardState, table: Table, id: string)
    requires s.confirmDeleteId != Some(id)
    ensures ClickDelete(s, table, id).confirmDeleteId == Some(id)
    ensures ClickDelete(s, table, id).deletes == s.deletes
    ensures ClickDelete(s, table, id) == s.(confirmDeleteId := Some(id))
  {
  }

  /** Two clicks on the same row send exactly one delete, for that row, and
      leave nothing pending while it runs. */
  lemma SecondClickDeletesOnce(s: DashboardState, table: Table, id: string)
    requires s.confirmDeleteId != Some(id)
    ensures var t := ClickDelete(ClickDelete(s, table, id), table, id);
      t.deletes == s.deletes + [DeleteRequest(table, id)] &&
      t.confirmDeleteId.None? && t.deletingId == Some(id)
  {
  }

  /** Cancel sends nothing and clears the pending mark, so the next click
      starts over. */
  lemma CancelStartsOver(s: DashboardState, table: Table, id: string)
    ensures CancelDelete(s).deletes == s.deletes
    ensures ClickDelete(CancelDelete(s), table, id).deletes == s.deletes
  {
  }

  /** The whole delete: two clicks, the delete's answer, the reload. One
      delete is sent, the list is what the reload returned and no row is
      pending or being deleted. */
  lemma DeleteCycle(s: DashboardState, table: Table, id: string, data: Option<seq<string>>)
    requires s.confirmDeleteId != Some(id)
    ensures var t := DeleteDone(StartReload(ClickDelete(ClickDelete(s, table, id), table, id), table),
                                table, data);
      t.deletes == s.deletes + [DeleteRequest(table, id)] &&
      t.confirmDeleteId.None? && t.deletingId.None? &&
      (table == ContactSubmissions ==> t.contacts == data.GetOr([]) && !t.contactsLoading) &&
      (table == ReviewsTable ==> t.reviews == data.GetOr([]) && !t.reviewsLoading)
  {
  }

  /** A click on a contact's header: it collapses if it was the expanded
      one, otherwise it becomes the only expanded one. */
  function ToggleExpanded(s: DashboardState, id: string): (r: DashboardState)
    ensures s.expandedContact == Some(id) ==> r.expandedContact.None?
    ensures s.expandedContact != Some(id) ==> r.expandedContact == Some(id)
  {
    s.(expandedContact := if s.expandedContact == Some(id) then None else Some(id))
  }

  /** Expanding one contact and then another leaves only the second open;
      a second click on it closes it. */
  lemma ExpandMovesToOther(s: DashboardState, a: string, b: string)
    requires a != b
    ensures ToggleExpanded(ToggleExpanded(s, a), b).expandedContact == Some(b)
    ensures ToggleExpanded(ToggleExpanded(ToggleExpanded(s, a), b), b).expandedContact.None?
  {
  }

  // ---------------------------------------------------------------------
  // Sign in and out

  function TypeEmail(s: DashboardState, v: string): DashboardState {
    s.(loginEmail := v)
  }

  function TypePassword(s: DashboardState, v: string): DashboardState {
    s.(loginPassword := v)
  }

  /** `loadSession` on mount: the admin session or none, then loading ends. */
  function SessionLoaded(s: DashboardState, lookup: SessionLookup): DashboardState {
    s.(session := lookup.session, loading := false)
  }

  /** The session effect: with a session both lists start loading. */
  function StartLoads(s: DashboardState): DashboardState {
    if s.session.Some? then s.(contactsLoading := true, reviewsLoading := true) else s
  }

  /** The start of `handleLogin`: the old message goes and the button
      shows progress. */
  function LoginStart(s: DashboardState): DashboardState {
    s.(loginError := None, loginSubmitting := true)
  }

  /** The email and password `signInAdmin` is called with. */
  function LoginRequest(s: DashboardState): (r: (string, string))
    ensures r.0 == Trim(s.loginEmail) && r.1 == s.loginPassword
  {
    (Trim(s.loginEmail), s.loginPassword)
  }

  /** `signInAdmin` has answered: its message is shown, or, without one,
      the page goes on to reload the session. */
  function LoginAnswered(s: DashboardState, outcome: SignInOutcome): DashboardState {
    if outcome.error.Some? then s.(loginSubmitting := false, loginError := outcome.error)
    else s.(loginSubmitting := false)
  }

  /** The reloaded session after a successful sign-in; the password field
      is cleared. */
  function LoginSessionLoaded(s: DashboardState, lookup: SessionLookup): DashboardState {
    s.(session := lookup.session, loginPassword := "")
  }

  /** `handleLogout` once `signOutAdmin` has returned. */
  function Logout(s: DashboardState): DashboardState {
    s.(session := None)
  }

  /** A refused sign-in shows exactly the message `signInAdmin` chose and
      keeps the typed password; the session is untouched. */
  lemma FailedLoginKeepsPassword(s: DashboardState, authError: Option<string>, user: Option<User>,
                                 adminRow: Option<string>)
    requires !(authError.None? && user.Some? && adminRow.Some?)
    ensures var t := LoginAnswered(LoginStart(s), SignInAdmin(authError, user, adminRow));
      t.loginError.Some? && t.loginError == SignInAdmin(authError, user, adminRow).error &&
      t.loginPassword == s.loginPassword && t.session == s.session && !t.loginSubmitting
  {
  }

  /** An admin's sign-in shows no message, loads the session and clears the
      password. */
  lemma AdminLoginClearsPassword(s: DashboardState, u: User, adminRow: string)
    ensures var t := LoginSessionLoaded(LoginAnswered(LoginStart(s), SignInAdmin(None, Some(u), Some(adminRow))),
                                        GetAdminSession(Some(u), Some(adminRow)));
      t.loginError.None? && t.loginPassword == "" && t.session == Some(AdminSession(u)) &&
      !t.loginSubmitting
  {
  }

  /** Signing out always ends the session, and with it the list loads. */
  lemma LogoutEndsSession(s: DashboardState)
    ensures Logout(s).session.None?
    ensures StartLoads(Logout(s)) == Logout(s)
  {
  }

  // ---------------------------------------------------------------------
  // The page

  class AdminPage {
    var session: Option<AdminSession>
    var loading: bool
    var loginEmail: string
    var loginPassword: string
    var loginError: Option<SignInError>
    var loginSubmitting: bool
    var contacts: seq<string>
    var reviews: seq<string>
    var contactsLoading: bool
    var reviewsLoading: bool
    var deletingId: Option<string>
    var confirmDeleteId: Option<string>
    var expandedContact: Option<string>
    var deletes: seq<DeleteRequest>

    function State(): DashboardState
      reads this
    {
      DashboardState(session, loading, loginEmail, loginPassword, loginError, loginSubmitting,
                     contacts, reviews, contactsLoading, reviewsLoading,
                     deletingId, confirmDeleteId, expandedContact, deletes)
    }

    constructor ()
      ensures State() == DASHBOARD_INITIAL
    {
      session, loading := None, true;
      loginEmail, loginPassword, loginError, loginSubmitting := "", "", None, false;
      contacts, reviews, contactsLoading, reviewsLoading := [], [], false, false;
      deletingId, confirmDeleteId, expandedContact := None, None, None;
      deletes := [];
    }

    /** `deleteContact` / `deleteReview` up to the backend call. */
    method Delete(table: Table, id: string)
      modifies this
      ensures State() == ClickDelete(old(State()), table, id)
    {
      if confirmDeleteId != Some(id) {
        confirmDeleteId := Some(id);
        return;
      }
      deletingId := Some(id);
      confirmDeleteId := None;
      deletes := deletes + [DeleteRequest(table, id)];
    }

    method DeleteAnswered(table: Table)
      modifies this
      ensures State() == StartReload(old(State()), table)
    {
      if table == ContactSubmissions {
        contactsLoading := true;
      } else {
        reviewsLoading := true;
      }
    }

    method Loaded(table: Table, data: Option<seq<string>>)
      modifies this
      ensures State() == ListLoaded(old(State()), table, data)
    {
      if table == ContactSubmissions {
        contacts := data.GetOr([]);
        contactsLoading := false;
      } else {
        reviews := data.GetOr([]);
        reviewsLoading := false;
      }
    }

    method DeleteReloaded(table: Table, data: Option<seq<string>>)
      modifies this
      ensures State() == DeleteDone(old(State()), table, data)
    {
      Loaded(table, data);
      deletingId := None;
    }

    method Cancel()
      modifies this
      ensures State() == CancelDelete(old(State()))
    {
      confirmDeleteId := None;
    }

    method ClickContact(id: string)
      modifies this
      ensures State() == ToggleExpanded(old(State()), id)
    {
      expandedContact := if expandedContact == Some(id) then None else Some(id);
    }

    method SetEmail(v: string)
      modifies this
      ensures State() == TypeEmail(old(State()), v)
    {
      loginEmail := v;
    }

    method SetPassword(v: string)
      modifies this
      ensures State() == TypePassword(old(State()), v)
    {
      loginPassword := v;
    }

    method MountSession(lookup: SessionLookup)
      modifies this
      ensures State() == SessionLoaded(old(State()), lookup)
    {
      session := lookup.session;
      loading := false;
    }

    method SessionEffect()
      modifies this
      ensures State() == StartLoads(old(State()))
    {
      if session.Some? {
        contactsLoading := true;
        reviewsLoading := true;
      }
    }

    /** The start of `handleLogin`; returns the credentials sent. */
    method Login() returns (email: string, password: string)
      modifies this
      ensures (email, password) == LoginRequest(old(State()))
      ensures State() == LoginStart(old(State()))
    {
      email, password := LoginRequest(State()).0, loginPassword;
      loginError := None;
      loginSubmitting := true;
    }

    /** Returns whether the page goes on to reload the session. */
    method LoginAnswer(outcome: SignInOutcome) returns (reload: bool)
      modifies this
      ensures reload <==> outcome.error.None?
      ensures State() == LoginAnswered(old(State()), outcome)
    {
      loginSubmitting := false;
      if outcome.error.Some? {
        loginError := outcome.error;
        return false;
      }
      reload := true;
    }

    method LoginSession(lookup: SessionLookup)
      modifies this
      ensures State() == LoginSessionLoaded(old(State()), lookup)
    {
      session := lookup.session;
      loginPassword := "";
    }

    method SignOut()
      modifies this
      ensures State() == Logout(old(State()))
    {
      session := None;
    }
  }
}
