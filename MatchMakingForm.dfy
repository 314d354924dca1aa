/**
 * The three-step partner-preference wizard: per-step validation of the
 * preferences record, the errors map it replaces, and the step counter that
 * Next and Previous move.
 */
module MatchMakingForm {
  import opened Text

  /** The names of the form's inputs (`e.target.name`). */
  datatype Field = AgeRangeMin | AgeRangeMax | Education | Profession | Location | AdditionalRequirements

  datatype Preferences = Preferences(
    ageRangeMin: string,
    ageRangeMax: string,
    education: string,
    profession: string,
    location: string,
    additionalRequirements: string)
  {
    function Get(f: Field): string {
      match f
      case AgeRangeMin => ageRangeMin
      case AgeRangeMax => ageRangeMax
      case Education => education
      case Profession => profession
      case Location => location
      case AdditionalRequirements => additionalRequirements
    }

    /** `{ ...prev, [name]: value }`. */
    function With(f: Field, v: string): (r: Preferences)
      ensures r.Get(f) == v
      ensures forall g :: g != f ==> r.Get(g) == Get(g)
    {
      match f
      case AgeRangeMin => this.(ageRangeMin := v)
      case AgeRangeMax => this.(ageRangeMax := v)
      case Education => this.(education := v)
      case Profession => this.(profession := v)
      case Location => this.(location := v)
      case AdditionalRequirements => this.(additionalRequirements := v)
    }
  }

  const EmptyPreferences := Preferences("", "", "", "", "", "")
  const TotalSteps := 3

  const MinAgeRequired := "Minimum age is required"
  const MaxAgeRequired := "Maximum age is required"
  const MaxAgeNotGreater := "Maximum age must be greater than minimum age"
  const EducationRequired := "Education preference is required"
  const ProfessionRequired := "Profession preference is required"
  const LocationRequired := "Location preference is required"

  /**
   * `parseInt(min) >= parseInt(max)`: a comparison with NaN is false, so an
   * age parseInt cannot read never reports the order error.
   */
  predicate AgesOutOfOrder(p: Preferences) {
    var lo := ParseInt(p.ageRangeMin);
    var hi := ParseInt(p.ageRangeMax);
    lo.Some? && hi.Some? && lo.value >= hi.value
  }

  /** The fields a step validates. */
  function StepFields(step: int): set<Field> {
    if step == 1 then {AgeRangeMin, AgeRangeMax}
    else if step == 2 then {Education, Profession}
    else if step == 3 then {Location}
    else {}
  }

  /** The `newErrors` map `validateStep(step)` builds. */
  function StepErrors(step: int, p: Preferences): (r: map<Field, string>)
    ensures r.Keys <= StepFields(step)
    ensures AdditionalRequirements !in r
    ensures step == 1 ==> (r == map[] <==> p.ageRangeMin != "" && p.ageRangeMax != "" && !AgesOutOfOrder(p))
    ensures step == 2 ==> (r == map[] <==> p.education != "" && p.profession != "")
    ensures step == 3 ==> (r == map[] <==> p.location != "")
    ensures step == 1 && p.ageRangeMin != "" && p.ageRangeMax != "" && AgesOutOfOrder(p) ==>
              r == map[AgeRangeMax := MaxAgeNotGreater]
    ensures step == 1 ==> (AgeRangeMin in r <==> p.ageRangeMin == "")
    ensures step == 1 && AgeRangeMin in r ==> r[AgeRangeMin] == MinAgeRequired
    ensures step == 1 ==> (AgeRangeMax in r <==> p.ageRangeMax == "" || (p.ageRangeMin != "" && AgesOutOfOrder(p)))
    ensures step == 1 && p.ageRangeMax == "" ==> AgeRangeMax in r && r[AgeRangeMax] == MaxAgeRequired
    ensures step == 2 ==> (Education in r <==> p.education == "")
    ensures step == 2 && Education in r ==> r[Education] == EducationRequired
    ensures step == 2 ==> (Profession in r <==> p.profession == "")
    ensures step == 2 && Profession in r ==> r[Profession] == ProfessionRequired
    ensures step == 3 ==> (Location in r <==> p.location == "")
    ensures step == 3 && Location in r ==> r[Location] == LocationRequired
  {
    if step == 1 then
      var e1 := if p.ageRangeMin == "" then map[AgeRangeMin := MinAgeRequired] else map[];
      var e2 := if p.ageRangeMax == "" then e1[AgeRangeMax := MaxAgeRequired] else e1;
      var r := if p.ageRangeMin != "" && p.ageRangeMax != "" && AgesOutOfOrder(p) then e2[AgeRangeMax := MaxAgeNotGreater] else e2;
      assert p.ageRangeMin == "" ==> AgeRangeMin in r;
      assert p.ageRangeMax == "" || AgesOutOfOrder(p) ==> AgeRangeMax in r;
      r
    else if step == 2 then
      var e1 := if p.education == "" then map[Education := EducationRequired] else map[];
      var r := if p.profession == "" then e1[Profession := ProfessionRequired] else e1;
      assert p.education == "" ==> Education in r;
      assert p.profession == "" ==> Profession in r;
      r
    else if step == 3 then
      var r := if p.location == "" then map[Location := LocationRequired] else map[];
      assert p.location == "" ==> Location in r;
      r
    else map[]
  }

  /** `validateStep(step)` returns true: the errors map it builds is empty. */
  predicate StepValid(step: int, p: Preferences) {
    StepErrors(step, p) == map[]
  }

  /**
   * For ages typed as whole numbers, step 1 passes exactly when the minimum
   * is below the maximum.
   */
  lemma AgeStepForNumbers(p: Preferences, lo: nat, hi: nat)
    requires p.ageRangeMin == NatToString(lo) && p.ageRangeMax == NatToString(hi)
    ensures StepValid(1, p) <==> lo < hi
  {
    ParseIntOfNatToString(lo, "");
    ParseIntOfNatToString(hi, "");
    assert NatToString(lo) + "" == NatToString(lo);
    assert NatToString(hi) + "" == NatToString(hi);
  }

  /** Validation looks only at the fields of the step it checks. */
  lemma StepValidReadsOnlyItsFields(step: int, p: Preferences, q: Preferences)
    requires forall f :: f in StepFields(step) ==> p.Get(f) == q.Get(f)
    ensures StepErrors(step, p) == StepErrors(step, q)
  {
    if step == 1 {
      assert p.Get(AgeRangeMin) == q.Get(AgeRangeMin) && p.Get(AgeRangeMax) == q.Get(AgeRangeMax);
    } else if step == 2 {
      assert p.Get(Education) == q.Get(Education) && p.Get(Profession) == q.Get(Profession);
    } else if step == 3 {
      assert p.Get(Location) == q.Get(Location);
    }
  }

  /** What saving the preferences (`createPreferences`) settled with. */
  datatype SaveOutcome = Saved | SaveFailed

  class PreferenceWizard {
    var step: int
    var preferences: Preferences
    var errors: map<Field, string>
    var loading: bool

    /** Driven through its buttons, the wizard stays on one of its three steps. */
    ghost predicate Valid()
      reads this
    {
      1 <= step <= TotalSteps
    }

    constructor ()
      ensures Valid()
      ensures step == 1 && preferences == EmptyPreferences && errors == map[] && !loading
    {
      step := 1;
      preferences := EmptyPreferences;
      errors := map[];
      loading := false;
    }

    /** `handleChange`: stores the value and blanks that field's error if it had one. */
    method HandleChange(name: Field, value: string)
      modifies this
      ensures preferences == old(preferences).With(name, value)
      ensures errors == if name in old(errors) && old(errors)[name] != "" then old(errors)[name := ""] else old(errors)
      ensures forall g :: g != name && g in old(errors) ==> g in errors && errors[g] == old(errors)[g]
      ensures step == old(step) && loading == old(loading)
    {
      preferences := preferences.With(name, value);
      if name in errors && errors[name] != "" {
        errors := errors[name := ""];
      }
    }

    /** `validateStep`: replaces the errors map and reports whether it is empty. */
    method ValidateStep(currentStep: int) returns (ok: bool)
      modifies this`errors
      ensures errors == StepErrors(currentStep, preferences)
      ensures ok <==> StepValid(currentStep, preferences)
      ensures ok <==> |errors| == 0
    {
      errors := StepErrors(currentStep, preferences);
      ok := |errors| == 0;
    }

    /** `handleNext`; the Next button is offered only before the last step. */
    method HandleNext()
      requires Valid() && step < TotalSteps
      modifies this
      ensures Valid()
      ensures step == if StepValid(old(step), old(preferences)) then old(step) + 1 else old(step)
      ensures errors == StepErrors(old(step), old(preferences))
      ensures preferences == old(preferences) && loading == old(loading)
    {
      var ok := ValidateStep(step);
      if ok {
        step := step + 1;
      }
    }

    /** `handlePrev`; the Previous button is disabled on the first step. */
    method HandlePrev()
      requires Valid() && step != 1
      modifies this
      ensures Valid()
      ensures step == old(step) - 1
      ensures preferences == old(preferences) && errors == old(errors) && loading == old(loading)
    {
      step := step - 1;
    }

    /**
     * `handleSubmit`: the preferences are dispatched only if the current step
     * validates; the form closes only when saving succeeded.
     */
    method HandleSubmit(outcome: SaveOutcome) returns (dispatched: Option<Preferences>, closed: bool)
      modifies this
      ensures dispatched.Some? <==> StepValid(old(step), old(preferences))
      ensures dispatched.Some? ==> dispatched.value == old(preferences)
      ensures closed <==> dispatched.Some? && outcome == Saved
      ensures errors == StepErrors(old(step), old(preferences))
      ensures loading == if dispatched.Some? then false else old(loading)
      ensures step == old(step) && preferences == old(preferences)
    {
      dispatched, closed := None, false;
      var ok := ValidateStep(step);
      if !ok {
        return;
      }
      loading := true;
      dispatched := Some(preferences);
      closed := outcome == Saved;
      loading := false;
    }
  }
}
