/**
 * The agency profile page: loading the profile and the user's chat
 * sessions, the error it reports, the unread-message badge, the chat panel
 * toggle, and which of its views the page shows.
 */
module AgencyDetail {
  import opened Text

  /** The parts of an agency record the page's logic reads. */
  datatype AgencyData = AgencyData(id: string, userId: Option<string>)

  /** `result.payload` of the profile fetch. */
  datatype Payload = Payload(message: Option<string>, data: Option<AgencyData>)

  /** How awaiting the profile fetch ended: with a result, or by throwing. */
  datatype ProfileResponse = Responded(payload: Option<Payload>) | Threw(message: Option<string>)

  datatype Session = Session(unreadCount: Option<int>)

  /** How the unwrapped sessions fetch ended. */
  datatype SessionsOutcome = SessionsFetched(sessions: seq<Session>) | SessionsFailed

  const ProfileNotFound := "Agency profile not found"
  const SessionsError := "Failed to fetch sessions"
  const LoadError := "Failed to load agency profile"

  /** `sessions[0]?.unreadCount || 0`. */
  function UnreadFromSessions(sessions: seq<Session>): (r: int)
    ensures sessions == [] ==> r == 0
    ensures sessions != [] && sessions[0].unreadCount.Some? ==> r == sessions[0].unreadCount.value
    ensures sessions != [] && sessions[0].unreadCount.None? ==> r == 0
  {
    if sessions != [] && sessions[0].unreadCount.Some? && sessions[0].unreadCount.value != 0
    then sessions[0].unreadCount.value
    else 0
  }

  /** The not-found test: the message mentions 'Profile not found', or there is no data. */
  predicate ReportsNotFound(payload: Option<Payload>) {
    || (payload.Some? && payload.value.message.Some? && Contains(payload.value.message.value, "Profile not found"))
    || payload.None? || payload.value.data.None?
  }

  /** The page's state. */
  datatype DetailState = DetailState(
    agency: Option<AgencyData>,
    loading: bool,
    error: Option<string>,
    showChat: bool,
    unreadCount: int)

  const InitialState := DetailState(None, true, None, false, 0)

  /**
   * `loadProfile`, as written: the error is only ever set, never cleared, and
   * the loading flag comes down on every path.
   */
  function LoadProfileEffect(s: DetailState, response: ProfileResponse, sessions: SessionsOutcome): (r: DetailState)
    ensures !r.loading && r.showChat == s.showChat
    ensures response.Threw? ==>
              r == s.(loading := false, error := Some(OrElse(response.message, LoadError)))
    ensures response.Responded? && ReportsNotFound(response.payload) ==>
              r == s.(loading := false, error := Some(ProfileNotFound))
    ensures response.Responded? && !ReportsNotFound(response.payload) ==>
              r.agency == response.payload.value.data
    ensures response.Responded? && !ReportsNotFound(response.payload)
            && !Truthy(response.payload.value.data.value.userId) ==>
              r.error == s.error && r.unreadCount == s.unreadCount
    ensures response.Responded? && !ReportsNotFound(response.payload)
            && Truthy(response.payload.value.data.value.userId) && sessions.SessionsFetched? ==>
              r.error == s.error && r.unreadCount == UnreadFromSessions(sessions.sessions)
    ensures response.Responded? && !ReportsNotFound(response.payload)
            && Truthy(response.payload.value.data.value.userId) && sessions.SessionsFailed? ==>
              r.error == Some(SessionsError) && r.unreadCount == s.unreadCount
  {
    match response
    case Threw(message) => s.(loading := false, error := Some(OrElse(message, LoadError)))
    case Responded(payload) =>
      if ReportsNotFound(payload) then s.(loading := false, error := Some(ProfileNotFound))
      else
        var data := payload.value.data.value;
        var t := s.(agency := Some(data));
        if !Truthy(data.userId) then t.(loading := false)
        else match sessions
          case SessionsFetched(list) => t.(loading := false, unreadCount := UnreadFromSessions(list))
          case SessionsFailed => t.(loading := false, error := Some(SessionsError))
  }

  /** What the page draws. */
  datatype View = Spinner | ErrorView(message: string) | NotFoundView | ProfileView(agency: AgencyData)

  function ViewOf(s: DetailState): (r: View)
    ensures r == Spinner <==> s.loading
    ensures r.ErrorView? <==> !s.loading && Truthy(s.error)
    ensures r.ProfileView? <==> !s.loading && !Truthy(s.error) && s.agency.Some?
  {
    if s.loading then Spinner
    else if Truthy(s.error) then ErrorView(s.error.value)
    else if s.agency.None? then NotFoundView
    else ProfileView(s.agency.value)
  }

  /** Every load ends the spinner, whatever the responses. */
  lemma LoadNeverSpins(s: DetailState, response: ProfileResponse, sessions: SessionsOutcome)
    ensures ViewOf(LoadProfileEffect(s, response, sessions)) != Spinner
  {
  }

  /**
   * On the first load, an agency found without a chat user is shown; a
   * failed sessions fetch hides it behind the error, as does a missing profile.
   */
  lemma FirstLoadView(response: ProfileResponse, sessions: SessionsOutcome)
    requires response.Responded?
    ensures ReportsNotFound(response.payload) ==>
              ViewOf(LoadProfileEffect(InitialState, response, sessions)) == ErrorView(ProfileNotFound)
    ensures !ReportsNotFound(response.payload)
            && (!Truthy(response.payload.value.data.value.userId) || sessions.SessionsFetched?) ==>
              ViewOf(LoadProfileEffect(InitialState, response, sessions)) == ProfileView(response.payload.value.data.value)
    ensures !ReportsNotFound(response.payload)
            && Truthy(response.payload.value.data.value.userId) && sessions.SessionsFailed? ==>
              ViewOf(LoadProfileEffect(InitialState, response, sessions)) == ErrorView(SessionsError)
  {
  }

  /**
   * The page stays on the error view when it loads a second agency after a
   * failed first load, because nothing clears the earlier error.
   */
  lemma StaleErrorHidesLoadedProfile()
    ensures var found := Responded(Some(Payload(None, Some(AgencyData("b", None)))));
            var missing := Responded(None);
            var first := LoadProfileEffect(InitialState, missing, SessionsFailed);
            ViewOf(LoadProfileEffect(first.(loading := true), found, SessionsFailed)) == ErrorView(ProfileNotFound)
  {
  }

  /**
   * `loadProfile` with the error cleared when a load starts: the page shows
   * an error exactly when this load failed.
   */
  function LoadProfileResettingError(s: DetailState, response: ProfileResponse, sessions: SessionsOutcome): (r: DetailState)
    ensures !r.loading
    ensures Truthy(r.error) <==>
              || response.Threw?
              || ReportsNotFound(response.payload)
              || (Truthy(response.payload.value.data.value.userId) && sessions.SessionsFailed?)
  {
    LoadProfileEffect(s.(error := None), response, sessions)
  }

  /**
   * With the error cleared at the start, what a load shows depends on its own
   * responses only, not on any earlier load: a found agency without a chat
   * user is always shown.
   */
  lemma ResettingErrorShowsLoadedProfile(s: DetailState, s': DetailState, response: ProfileResponse, sessions: SessionsOutcome)
    ensures ViewOf(LoadProfileResettingError(s, response, sessions)).ErrorView?
            == ViewOf(LoadProfileResettingError(s', response, sessions)).ErrorView?
    ensures response.Responded? && !ReportsNotFound(response.payload)
            && !Truthy(response.payload.value.data.value.userId) ==>
              ViewOf(LoadProfileResettingError(s, response, sessions)) == ProfileView(response.payload.value.data.value)
  {
  }

  // ---------------------------------------------------------------------
  // Chat toggle

  /** `toggleChat`: opening clears the unread badge; closing leaves it. */
  function ChatToggled(s: DetailState): (r: DetailState)
    ensures r.showChat == !s.showChat
    ensures !s.showChat ==> r.unreadCount == if s.unreadCount > 0 then 0 else s.unreadCount
    ensures s.showChat ==> r.unreadCount == s.unreadCount
    ensures r.agency == s.agency && r.loading == s.loading && r.error == s.error
  {
    var unread := if !s.showChat && s.unreadCount > 0 then 0 else s.unreadCount;
    s.(showChat := !s.showChat, unreadCount := unread)
  }

  /**
   * Two toggles restore the panel; the chat was opened once in between, so
   * a positive badge is gone and nothing else changed.
   */
  lemma ToggleChatTwice(s: DetailState)
    ensures ChatToggled(ChatToggled(s)) == s.(unreadCount := if s.unreadCount > 0 then 0 else s.unreadCount)
  {
  }

  class AgencyDetailPage {
    var agency: Option<AgencyData>
    var loading: bool
    var error: Option<string>
    var showChat: bool
    var unreadCount: int

    function State(): DetailState
      reads this
    {
      DetailState(agency, loading, error, showChat, unreadCount)
    }

    constructor ()
      ensures State() == InitialState
    {
      agency, loading, error, showChat, unreadCount := None, true, None, false, 0;
    }

    /** The effect run for the route's id. */
    method LoadProfile(response: ProfileResponse, sessions: SessionsOutcome)
      modifies this
      ensures State() == LoadProfileEffect(old(State()), response, sessions)
    {
      loading := true;
      match response {
        case Threw(message) =>
          error := Some(OrElse(message, LoadError));
        case Responded(payload) =>
          if ReportsNotFound(payload) {
            error := Some(ProfileNotFound);
          } else {
            var data := payload.value.data.value;
            agency := Some(data);
            if Truthy(data.userId) {
              match sessions {
                case SessionsFetched(list) =>
                  unreadCount := UnreadFromSessions(list);
                case SessionsFailed =>
                  error := Some(SessionsError);
              }
            }
          }
      }
      loading := false;
    }

    method ToggleChat()
      modifies this`showChat, this`unreadCount
      ensures State() == ChatToggled(old(State()))
    {
      if !showChat && unreadCount > 0 {
        unreadCount := 0;
      }
      showChat := !showChat;
    }
  }
}
