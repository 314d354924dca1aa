/**
 * The profile-visibility modal: its two options, the selection it starts
 * from, the submit that forwards the selection, the rule that disables that
 * submit, and the current-status panel.
 */
module VisibilityModal {
  import opened Text

  datatype VisibilityOption = PublicOption | PrivateOption
  {
    function Id(): (r: string)
      ensures r == "public" || r == "private"
    {
      match this
      case PublicOption => "public"
      case PrivateOption => "private"
    }
  }

  const VisibilityOptions: seq<VisibilityOption> := [PublicOption, PrivateOption]

  /** The two options carry different ids, so choosing one tells which was chosen. */
  lemma OptionIdsDistinct(a: VisibilityOption, b: VisibilityOption)
    ensures a.Id() == b.Id() <==> a == b
  {
  }

  /** `currentVisibility || 'private'`. */
  function InitialSelection(currentVisibility: Option<string>): (r: string)
    ensures Truthy(currentVisibility) ==> r == currentVisibility.value
    ensures !Truthy(currentVisibility) ==> r == "private"
  {
    OrElse(currentVisibility, "private")
  }

  /** `loading || selectedVisibility === currentVisibility`. */
  predicate SubmitDisabled(loading: bool, selected: string, currentVisibility: Option<string>) {
    loading || currentVisibility == Some(selected)
  }

  /**
   * In a freshly opened modal the submit is disabled exactly while loading or
   * when a visibility is known; with none known, 'private' can be sent at once.
   */
  lemma FreshModalSubmitDisabled(loading: bool, currentVisibility: Option<string>)
    ensures SubmitDisabled(loading, InitialSelection(currentVisibility), currentVisibility)
            <==> loading || Truthy(currentVisibility)
  {
  }

  datatype StatusLabel = PublicStatus | PrivateStatus

  /** The current-status panel: Public only for exactly 'public'. */
  function CurrentStatus(currentVisibility: Option<string>): (r: StatusLabel)
    ensures r == PublicStatus <==> currentVisibility == Some("public")
  {
    if currentVisibility == Some("public") then PublicStatus else PrivateStatus
  }

  /**
   * When the status panel and the chosen option agree, the submit is
   * disabled; choosing the other option enables it unless loading.
   */
  lemma ChoosingOtherOptionEnablesSubmit(o: VisibilityOption, currentVisibility: Option<string>)
    requires currentVisibility == Some("public") || currentVisibility == Some("private")
    ensures SubmitDisabled(false, o.Id(), currentVisibility)
            <==> (o == PublicOption <==> CurrentStatus(currentVisibility) == PublicStatus)
  {
  }

  /**
   * A submitted selection stays refused once the page shows it as current:
   * the submit is disabled for it, and choosing an option enables the submit
   * again, when not loading, exactly when that option is the other one.
   */
  lemma SubmittedSelectionStaysDisabled(submitted: string, loading: bool, o: VisibilityOption)
    ensures SubmitDisabled(loading, submitted, Some(submitted))
    ensures !SubmitDisabled(false, o.Id(), Some(submitted)) <==> o.Id() != submitted
  {
  }

  class VisibilityModalState {
    /** The `currentVisibility` prop; the page passes its own visibility on every render. */
    var currentVisibility: Option<string>
    var selectedVisibility: string

    constructor (current: Option<string>)
      ensures currentVisibility == current
      ensures selectedVisibility == InitialSelection(current)
    {
      currentVisibility := current;
      selectedVisibility := OrElse(current, "private");
    }

    /**
     * A new `currentVisibility` from the page: `useState` only took the
     * prop's first value, so the selection is left as it was.
     */
    method ReceiveCurrentVisibility(current: Option<string>)
      modifies this`currentVisibility
      ensures currentVisibility == current
    {
      currentVisibility := current;
    }

    /** The radio `onChange` of an option. */
    method Choose(o: VisibilityOption)
      modifies this`selectedVisibility
      ensures selectedVisibility == o.Id()
    {
      selectedVisibility := o.Id();
    }

    /**
     * `handleSubmit`, reachable only through the submit button, which is
     * disabled while loading or when the selection is already the current
     * visibility: what goes to `onUpdateVisibility` is the selection, and it
     * always differs from the visibility the page shows.
     */
    method HandleSubmit(loading: bool) returns (requested: string)
      requires !SubmitDisabled(loading, selectedVisibility, currentVisibility)
      ensures requested == selectedVisibility
      ensures currentVisibility != Some(requested) && !loading
    {
      requested := selectedVisibility;
    }
  }
}
