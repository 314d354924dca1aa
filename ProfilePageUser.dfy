/**
 * The user's profile page: which profile counts as one's own, loading the
 * profile with its preferences and payment, the stored visibility and its
 * update, deleting the profile, and the personal-information values with
 * their 'Not specified' fallbacks.
 */
module ProfilePageUser {
  import opened Text
  import PreferenceCard
  import PaymentDetail
  import VisibilityModal

  /** The signed-in user as the auth context provides it; either id may be missing. */
  datatype AuthUser = AuthUser(id: Option<string>, userId: Option<string>)

  /** `user?.id`. */
  function IdOf(user: Option<AuthUser>): Option<string> {
    if user.None? then None else user.value.id
  }

  /** `user?.userId`. */
  function UserIdOf(user: Option<AuthUser>): Option<string> {
    if user.None? then None else user.value.userId
  }

  /**
   * `user?.id === userId || user?.userId === userId`; a missing value is
   * `undefined` on both sides, and `undefined === undefined`.
   */
  predicate IsOwnProfile(user: Option<AuthUser>, routeUserId: Option<string>) {
    IdOf(user) == routeUserId || UserIdOf(user) == routeUserId
  }

  /** For a route that names a user, the profile is one's own exactly when a signed-in user carries that id. */
  lemma OwnProfileForNamedRoute(user: Option<AuthUser>, routeUserId: string)
    ensures IsOwnProfile(user, Some(routeUserId)) <==>
              user.Some? && (user.value.id == Some(routeUserId) || user.value.userId == Some(routeUserId))
  {
  }

  // ---------------------------------------------------------------------
  // Personal information

  datatype Profile = Profile(
    name: Option<string>,
    age: Option<nat>,
    education: Option<string>,
    occupation: Option<string>,
    income: Option<string>,
    address: Option<string>)

  datatype InfoItem = InfoItem(caption: string, value: string)

  /** The age value: `${age} years` for a truthy age. */
  function AgeText(age: Option<nat>): (r: string)
    ensures age.None? || age.value == 0 ==> r == PreferenceCard.NotSpecified
    ensures age.Some? && age.value != 0 ==> r == NatToString(age.value) + " years"
  {
    if age.Some? && age.value != 0 then NatToString(age.value) + " years" else PreferenceCard.NotSpecified
  }

  /** A shown age reads back as the profile's age. */
  lemma AgeTextReadsBack(a: nat)
    requires a != 0
    ensures ParseInt(AgeText(Some(a))) == Some(a)
  {
    var suffix := " years";
    assert suffix[0] == ' ';
    ParseIntOfNatToString(a, suffix);
  }

  /**
   * `personalInfo`: the name as given (nothing is drawn for a missing name),
   * the other fields falling back to 'Not specified'.
   */
  function PersonalInfo(p: Profile): (r: seq<InfoItem>)
    ensures |r| == 6
    ensures r[0] == InfoItem("Full Name", OrElse(p.name, ""))
    ensures r[1] == InfoItem("Age", AgeText(p.age))
    ensures r[2] == InfoItem("Education", OrElse(p.education, PreferenceCard.NotSpecified))
    ensures r[3] == InfoItem("Occupation", OrElse(p.occupation, PreferenceCard.NotSpecified))
    ensures r[4] == InfoItem("Income", OrElse(p.income, PreferenceCard.NotSpecified))
    ensures r[5] == InfoItem("Location", OrElse(p.address, PreferenceCard.NotSpecified))
  {
    [ InfoItem("Full Name", OrElse(p.name, "")),
      InfoItem("Age", AgeText(p.age)),
      InfoItem("Education", OrElse(p.education, PreferenceCard.NotSpecified)),
      InfoItem("Occupation", OrElse(p.occupation, PreferenceCard.NotSpecified)),
      InfoItem("Income", OrElse(p.income, PreferenceCard.NotSpecified)),
      InfoItem("Location", OrElse(p.address, PreferenceCard.NotSpecified)) ]
  }

  /** Each of the last four items shows its field when truthy and 'Not specified' otherwise. */
  lemma PersonalInfoFallbacks(p: Profile, k: nat)
    requires 2 <= k < 6
    ensures var field := [p.education, p.occupation, p.income, p.address][k - 2];
            PersonalInfo(p)[k].value == (if Truthy(field) then field.value else PreferenceCard.NotSpecified)
  {
  }

  // ---------------------------------------------------------------------
  // Loading, visibility and deletion

  /** How the combined profile, preferences and payment fetch ended. */
  datatype DataOutcome =
    | DataFetched(profile: Option<Profile>, preferences: Option<PreferenceCard.SavedPreferences>,
                  payment: Option<PaymentDetail.Payment>)
    | DataFailed

  /** How the visibility fetch ended; `visibility` is `result?.visibility`. */
  datatype VisibilityFetch = VisibilityFetched(visibility: Option<string>) | VisibilityFetchFailed

  /** The action `handleVisibilityUpdate` dispatches. */
  datatype VisibilityAction = MakePublic | MakePrivate

  datatype Outcome = Succeeded | Failed

  /** 'public' asks for the public action; any other value for the private one. */
  function VisibilityActionFor(newVisibility: string): (r: VisibilityAction)
    ensures r == MakePublic <==> newVisibility == "public"
  {
    if newVisibility == "public" then MakePublic else MakePrivate
  }

  /** The visibility after a fetch: replaced only by a truthy value. */
  function VisibilityAfterFetch(current: string, fetched: VisibilityFetch): (r: string)
    ensures fetched.VisibilityFetched? && Truthy(fetched.visibility) ==> r == fetched.visibility.value
    ensures !(fetched.VisibilityFetched? && Truthy(fetched.visibility)) ==> r == current
  {
    if fetched.VisibilityFetched? && Truthy(fetched.visibility) then fetched.visibility.value else current
  }

  const ProfileFormRoute := "/phase2/profile/form"

  class ProfilePage {
    const routeUserId: Option<string>
    var profile: Option<Profile>
    var preferences: Option<PreferenceCard.SavedPreferences>
    var payment: Option<PaymentDetail.Payment>
    var loading: bool
    var deleteModalOpen: bool
    var visibilityModalOpen: bool
    var visibility: string
    var visibilityLoading: bool
    /** The visibility an update in flight asked for. */
    var pendingVisibility: Option<string>

    /** An update is in flight exactly while the visibility-loading flag is up. */
    ghost predicate Valid()
      reads this
    {
      visibilityLoading <==> pendingVisibility.Some?
    }

    constructor (route: Option<string>)
      ensures Valid()
      ensures routeUserId == route && profile == None && preferences == None && payment == None
      ensures loading && !deleteModalOpen && !visibilityModalOpen
      ensures visibility == "private" && !visibilityLoading && pendingVisibility == None
    {
      routeUserId := route;
      profile, preferences, payment := None, None, None;
      loading := true;
      deleteModalOpen, visibilityModalOpen := false, false;
      visibility := "private";
      visibilityLoading := false;
      pendingVisibility := None;
    }

    /** `fetchVisibility`. */
    method FetchVisibility(fetched: VisibilityFetch)
      modifies this`visibility
      ensures visibility == VisibilityAfterFetch(old(visibility), fetched)
    {
      if fetched.VisibilityFetched? && Truthy(fetched.visibility) {
        visibility := fetched.visibility.value;
      }
    }

    /**
     * The data effect: runs only for a route that names a user; the
     * visibility is fetched only for one's own profile, and loading ends
     * whatever happened.
     */
    method LoadData(user: Option<AuthUser>, data: DataOutcome, fetched: VisibilityFetch)
      modifies this`profile, this`preferences, this`payment, this`loading, this`visibility
      ensures !Truthy(routeUserId) ==>
                profile == old(profile) && preferences == old(preferences) && payment == old(payment)
                && loading == old(loading) && visibility == old(visibility)
      ensures Truthy(routeUserId) ==> !loading
      ensures Truthy(routeUserId) && data.DataFetched? ==>
                profile == data.profile && preferences == data.preferences && payment == data.payment
      ensures Truthy(routeUserId) && data.DataFetched? && IsOwnProfile(user, routeUserId) ==>
                visibility == VisibilityAfterFetch(old(visibility), fetched)
      ensures Truthy(routeUserId) && data.DataFetched? && !IsOwnProfile(user, routeUserId) ==>
                visibility == old(visibility)
      ensures Truthy(routeUserId) && data.DataFailed? ==>
                profile == old(profile) && preferences == old(preferences) && payment == old(payment)
                && visibility == old(visibility)
    {
      if !Truthy(routeUserId) {
        return;
      }
      loading := true;
      if data.DataFetched? {
        profile := data.profile;
        preferences := data.preferences;
        payment := data.payment;
        if IsOwnProfile(user, routeUserId) {
          FetchVisibility(fetched);
        }
      }
      loading := false;
    }

    /** The synchronous start of `handleVisibilityUpdate`: the flag goes up and the action is chosen. */
    method StartVisibilityUpdate(newVisibility: string) returns (action: VisibilityAction)
      requires Valid() && !visibilityLoading
      modifies this`visibilityLoading, this`pendingVisibility
      ensures Valid() && visibilityLoading && pendingVisibility == Some(newVisibility)
      ensures action == VisibilityActionFor(newVisibility)
    {
      visibilityLoading := true;
      pendingVisibility := Some(newVisibility);
      if newVisibility == "public" {
        action := MakePublic;
      } else {
        action := MakePrivate;
      }
    }

    /**
     * The rest of `handleVisibilityUpdate`: on success the visibility
     * becomes the requested one and the modal closes; on failure both stay.
     * The flag comes down either way.
     */
    method FinishVisibilityUpdate(outcome: Outcome)
      requires Valid() && visibilityLoading
      modifies this`visibility, this`visibilityModalOpen, this`visibilityLoading, this`pendingVisibility
      ensures Valid() && !visibilityLoading
      ensures outcome == Succeeded ==> visibility == old(pendingVisibility).value && !visibilityModalOpen
      ensures outcome == Failed ==> visibility == old(visibility) && visibilityModalOpen == old(visibilityModalOpen)
    {
      if outcome == Succeeded {
        visibility := pendingVisibility.value;
        visibilityModalOpen := false;
      }
      visibilityLoading := false;
      pendingVisibility := None;
    }

    /** `handleVisibilityUpdate` as one step. */
    method HandleVisibilityUpdate(newVisibility: string, outcome: Outcome) returns (action: VisibilityAction)
      requires Valid() && !visibilityLoading
      modifies this`visibility, this`visibilityModalOpen, this`visibilityLoading, this`pendingVisibility
      ensures Valid() && !visibilityLoading
      ensures action == VisibilityActionFor(newVisibility)
      ensures visibility == if outcome == Succeeded then newVisibility else old(visibility)
      ensures visibilityModalOpen == if outcome == Succeeded then false else old(visibilityModalOpen)
    {
      action := StartVisibilityUpdate(newVisibility);
      FinishVisibilityUpdate(outcome);
    }

    /**
     * The visibility modal's submit wired to `handleVisibilityUpdate`, with
     * the page's visibility and loading flag as the modal's props. The
     * modal's submit guard is what keeps a second update from starting while
     * one is in flight. A successful update changes the visibility to the
     * selection, and the modal, shown the new value, then refuses to submit
     * it again.
     */
    method SubmitFromModal(modal: VisibilityModal.VisibilityModalState, outcome: Outcome) returns (action: VisibilityAction)
      requires Valid() && modal.currentVisibility == Some(visibility)
      requires !VisibilityModal.SubmitDisabled(visibilityLoading, modal.selectedVisibility, modal.currentVisibility)
      modifies this`visibility, this`visibilityModalOpen, this`visibilityLoading, this`pendingVisibility
      modifies modal`currentVisibility
      ensures Valid() && !visibilityLoading
      ensures modal.currentVisibility == Some(visibility)
      ensures action == VisibilityActionFor(modal.selectedVisibility)
      ensures outcome == Succeeded ==>
                visibility == modal.selectedVisibility && visibility != old(visibility) && !visibilityModalOpen
      ensures outcome == Succeeded ==>
                VisibilityModal.SubmitDisabled(visibilityLoading, modal.selectedVisibility, modal.currentVisibility)
      ensures outcome == Failed ==> visibility == old(visibility) && visibilityModalOpen == old(visibilityModalOpen)
    {
      var requested := modal.HandleSubmit(visibilityLoading);
      action := HandleVisibilityUpdate(requested, outcome);
      modal.ReceiveCurrentVisibility(Some(visibility));
    }

    /**
     * `handleDeleteProfile`: the modal closes after either outcome; the page
     * moves to the profile form only after a successful delete.
     */
    method HandleDeleteProfile(outcome: Outcome) returns (navigateTo: Option<string>)
      modifies this`deleteModalOpen
      ensures !deleteModalOpen
      ensures navigateTo.Some? <==> outcome == Succeeded
      ensures navigateTo.Some? ==> navigateTo.value == ProfileFormRoute
    {
      navigateTo := if outcome == Succeeded then Some(ProfileFormRoute) else None;
      deleteModalOpen := false;
    }
  }
}
