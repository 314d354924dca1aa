/**
 * The partner-preference card: the four items it lists, each falling back
 * to 'Not specified', and the additional-requirements block.
 */
module PreferenceCard {
  import opened Text
  import MatchMakingForm

  const NotSpecified := "Not specified"

  /** Saved preferences as the server returns them; any field may be missing. */
  datatype SavedPreferences = SavedPreferences(
    ageRangeMin: Option<string>,
    ageRangeMax: Option<string>,
    education: Option<string>,
    profession: Option<string>,
    location: Option<string>,
    additionalRequirements: Option<string>)
  {
    function Get(key: PreferenceKey): Option<string> {
      match key
      case AgeRangeMin => ageRangeMin
      case AgeRangeMax => ageRangeMax
      case Education => education
      case Profession => profession
      case Location => location
      case AdditionalRequirements => additionalRequirements
    }
  }

  datatype PreferenceKey = AgeRangeMin | AgeRangeMax | Education | Profession | Location | AdditionalRequirements

  /** The card's key for a wizard field; a helper that lets `FromForm` state its fields. */
  function KeyOf(f: MatchMakingForm.Field): (k: PreferenceKey)
  {
    match f
    case AgeRangeMin => PreferenceKey.AgeRangeMin
    case AgeRangeMax => PreferenceKey.AgeRangeMax
    case Education => PreferenceKey.Education
    case Profession => PreferenceKey.Profession
    case Location => PreferenceKey.Location
    case AdditionalRequirements => PreferenceKey.AdditionalRequirements
  }

  datatype PreferenceItem = PreferenceItem(caption: string, value: string)

  /** `preferences?.field`. */
  function Field(p: Option<SavedPreferences>, key: PreferenceKey): Option<string> {
    if p.None? then None else p.value.Get(key)
  }

  /** The age item's text: "<min> - <max> years". */
  function AgeRangeText(p: Option<SavedPreferences>): string {
    OrElse(Field(p, AgeRangeMin), NotSpecified) + " - "
      + OrElse(Field(p, AgeRangeMax), NotSpecified) + " years"
  }

  /** `preferenceItems`. */
  function PreferenceItems(p: Option<SavedPreferences>): (r: seq<PreferenceItem>)
    ensures |r| == 4
    ensures r[0].caption == "Age Range" && r[1].caption == "Education"
    ensures r[2].caption == "Profession" && r[3].caption == "Location"
    ensures r[0].value == AgeRangeText(p)
    ensures r[1].value == OrElse(Field(p, Education), NotSpecified)
    ensures r[2].value == OrElse(Field(p, Profession), NotSpecified)
    ensures r[3].value == OrElse(Field(p, Location), NotSpecified)
  {
    [ PreferenceItem("Age Range", AgeRangeText(p)),
      PreferenceItem("Education", OrElse(Field(p, Education), NotSpecified)),
      PreferenceItem("Profession", OrElse(Field(p, Profession), NotSpecified)),
      PreferenceItem("Location", OrElse(Field(p, Location), NotSpecified)) ]
  }

  /** The additional-requirements block is drawn only for a truthy value. */
  predicate ShowsAdditionalRequirements(p: Option<SavedPreferences>) {
    Truthy(Field(p, AdditionalRequirements))
  }

  /** With no preferences at all every item falls back and no block is drawn. */
  lemma NoPreferencesShowNotSpecified()
    ensures PreferenceItems(None)[0].value == "Not specified - Not specified years"
    ensures forall k :: 1 <= k < 4 ==> PreferenceItems(None)[k].value == NotSpecified
    ensures !ShowsAdditionalRequirements(None)
  {
    var r := PreferenceItems(None);
    assert r[1].value == NotSpecified && r[2].value == NotSpecified && r[3].value == NotSpecified;
  }

  /**
   * The record the wizard saves, as the card reads it back: every field as
   * entered, the server being taken to return it unchanged.
   */
  function FromForm(p: MatchMakingForm.Preferences): (r: SavedPreferences)
    ensures forall k: MatchMakingForm.Field :: r.Get(KeyOf(k)) == Some(p.Get(k))
  {
    SavedPreferences(Some(p.ageRangeMin), Some(p.ageRangeMax), Some(p.education),
                     Some(p.profession), Some(p.location), Some(p.additionalRequirements))
  }

  /**
   * Preferences that pass all three wizard steps are listed as entered:
   * no item falls back to 'Not specified'.
   */
  lemma WizardPreferencesShowAsEntered(p: MatchMakingForm.Preferences)
    requires MatchMakingForm.StepValid(1, p) && MatchMakingForm.StepValid(2, p) && MatchMakingForm.StepValid(3, p)
    ensures PreferenceItems(Some(FromForm(p)))[0].value == p.ageRangeMin + " - " + p.ageRangeMax + " years"
    ensures PreferenceItems(Some(FromForm(p)))[1].value == p.education
    ensures PreferenceItems(Some(FromForm(p)))[2].value == p.profession
    ensures PreferenceItems(Some(FromForm(p)))[3].value == p.location
    ensures ShowsAdditionalRequirements(Some(FromForm(p))) <==> p.additionalRequirements != ""
  {
    assert p.ageRangeMin != "" && p.ageRangeMax != "" by {
      assert MatchMakingForm.StepErrors(1, p) == map[];
    }
    assert p.education != "" && p.profession != "" by {
      assert MatchMakingForm.StepErrors(2, p) == map[];
    }
    assert p.location != "" by {
      assert MatchMakingForm.StepErrors(3, p) == map[];
    }
    FilledFormShowsAsEntered(p);
  }

  /** A helper of `WizardPreferencesShowAsEntered`: a form with every field filled shows each as typed. */
  lemma FilledFormShowsAsEntered(p: MatchMakingForm.Preferences)
    requires p.ageRangeMin != "" && p.ageRangeMax != "" && p.education != ""
    requires p.profession != "" && p.location != ""
    ensures PreferenceItems(Some(FromForm(p)))[0].value == p.ageRangeMin + " - " + p.ageRangeMax + " years"
    ensures PreferenceItems(Some(FromForm(p)))[1].value == p.education
    ensures PreferenceItems(Some(FromForm(p)))[2].value == p.profession
    ensures PreferenceItems(Some(FromForm(p)))[3].value == p.location
    ensures ShowsAdditionalRequirements(Some(FromForm(p))) <==> p.additionalRequirements != ""
  {
  }
}
