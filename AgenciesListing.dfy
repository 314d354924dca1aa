/**
 * The agency listing page: the conjunctive search-and-filter predicate over
 * the loaded agencies, the de-duplicated city list that feeds the city
 * selector, clearing the filters, and how the result of loading the agencies
 * is turned into the list and the `error` state (which no markup of the
 * page reads, so it is never displayed).
 */
module AgenciesListing {
  import opened Text

  /** The fields of an agency record the page reads. */
  datatype Agency = Agency(name: string, city: string, isVerified: bool, yearOfExp: int)

  datatype Filters = Filters(verified: bool, experience: string, city: string)

  /** The filters the page starts with and returns to when they are cleared. */
  const DefaultFilters := Filters(false, "", "")

  /** The values the experience selector offers besides "" (all levels). */
  const ExperienceOptions: seq<nat> := [1, 3, 5, 10]

  // ---------------------------------------------------------------------
  // The filter predicate

  /** Case-insensitive search on the name or the city. */
  predicate MatchesSearch(a: Agency, searchTerm: string) {
    var search := ToLower(searchTerm);
    Contains(ToLower(a.name), search) || Contains(ToLower(a.city), search)
  }

  predicate MatchesVerified(a: Agency, f: Filters) {
    !f.verified || a.isVerified
  }

  /**
   * The minimum experience an experience value asks for: '5+' is 5, anything
   * else is read with parseInt; None is NaN, against which every comparison
   * is false.
   */
  function ExperienceThreshold(experience: string): Option<int> {
    if experience == "5+" then Some(5) else ParseInt(experience)
  }

  predicate MatchesExperience(a: Agency, f: Filters) {
    f.experience == ""
    || (ExperienceThreshold(f.experience).Some? && a.yearOfExp >= ExperienceThreshold(f.experience).value)
  }

  /** The city filter is an exact, case-sensitive comparison. */
  predicate MatchesCity(a: Agency, f: Filters) {
    f.city == "" || a.city == f.city
  }

  predicate Keep(a: Agency, searchTerm: string, f: Filters) {
    MatchesSearch(a, searchTerm) && MatchesVerified(a, f) && MatchesExperience(a, f) && MatchesCity(a, f)
  }

  /** `r` is `s` with some elements left out and the rest in their order. */
  ghost predicate IsSubsequence<T>(r: seq<T>, s: seq<T>)
    decreases |s|
  {
    if s == [] then r == []
    else (r != [] && r[0] == s[0] && IsSubsequence(r[1..], s[1..])) || IsSubsequence(r, s[1..])
  }

  /** The `filteredAgencies` memo. */
  function FilterAgencies(agencies: seq<Agency>, searchTerm: string, f: Filters): (r: seq<Agency>)
    ensures IsSubsequence(r, agencies)
    ensures forall a :: a in agencies && Keep(a, searchTerm, f) ==> a in r
    ensures forall a :: a in r ==>
              Contains(ToLower(a.name), ToLower(searchTerm)) || Contains(ToLower(a.city), ToLower(searchTerm))
    ensures f.verified ==> forall a :: a in r ==> a.isVerified
    ensures f.experience != "" ==> forall a :: a in r ==>
              ExperienceThreshold(f.experience).Some? && a.yearOfExp >= ExperienceThreshold(f.experience).value
    ensures f.city != "" ==> forall a :: a in r ==> a.city == f.city
    decreases |agencies|
  {
    if agencies == [] then []
    else
      var rest := FilterAgencies(agencies[1..], searchTerm, f);
      if Keep(agencies[0], searchTerm, f) then [agencies[0]] + rest else rest
  }

  /** Every agency in the result passes all four parts of the filter. */
  lemma {:induction false} FilterKeepsOnlyMatches(agencies: seq<Agency>, searchTerm: string, f: Filters)
    ensures forall a :: a in FilterAgencies(agencies, searchTerm, f) ==> a in agencies && Keep(a, searchTerm, f)
    decreases |agencies|
  {
    if agencies != [] {
      FilterKeepsOnlyMatches(agencies[1..], searchTerm, f);
    }
  }

  /**
   * Like `filter`, the result keeps every copy of a passing agency: each
   * record occurs as often as in the loaded list if it passes, and not at all
   * otherwise.
   */
  lemma {:induction false} FilterKeepsEveryCopy(agencies: seq<Agency>, searchTerm: string, f: Filters)
    ensures forall a :: multiset(FilterAgencies(agencies, searchTerm, f))[a] ==
              if Keep(a, searchTerm, f) then multiset(agencies)[a] else 0
    decreases |agencies|
  {
    if agencies != [] {
      FilterKeepsEveryCopy(agencies[1..], searchTerm, f);
      assert agencies == [agencies[0]] + agencies[1..];
    }
  }

  /** An empty search with the default filters keeps every agency, in order. */
  lemma {:induction false} DefaultFiltersKeepAll(agencies: seq<Agency>)
    ensures FilterAgencies(agencies, "", DefaultFilters) == agencies
    decreases |agencies|
  {
    if agencies != [] {
      assert ToLower("") == "";
      ContainsEmpty(ToLower(agencies[0].name));
      DefaultFiltersKeepAll(agencies[1..]);
    }
  }

  /** The search is case-insensitive: upper- and lower-case terms select the same agencies. */
  lemma SearchIgnoresCase(agencies: seq<Agency>, searchTerm: string, f: Filters)
    ensures FilterAgencies(agencies, ToLower(searchTerm), f) == FilterAgencies(agencies, searchTerm, f)
  {
    ToLowerIdempotent(searchTerm);
    FilterDependsOnLowerTerm(agencies, ToLower(searchTerm), searchTerm, f);
  }

  lemma {:induction false} FilterDependsOnLowerTerm(agencies: seq<Agency>, t1: string, t2: string, f: Filters)
    requires ToLower(t1) == ToLower(t2)
    ensures FilterAgencies(agencies, t1, f) == FilterAgencies(agencies, t2, f)
    decreases |agencies|
  {
    if agencies != [] {
      FilterDependsOnLowerTerm(agencies[1..], t1, t2, f);
    }
  }

  /** Every agency with its verification flag set to `b`. */
  function WithVerified(agencies: seq<Agency>, b: bool): (r: seq<Agency>)
    ensures |r| == |agencies|
    ensures forall i :: 0 <= i < |r| ==> r[i] == agencies[i].(isVerified := b)
  {
    seq(|agencies|, i requires 0 <= i < |agencies| => agencies[i].(isVerified := b))
  }

  /**
   * With verified-only off, verification does not affect the result: changing
   * every agency's flag selects the same agencies.
   */
  lemma {:induction false} VerifiedOffIgnoresVerification(agencies: seq<Agency>, searchTerm: string, f: Filters, b: bool)
    requires !f.verified
    ensures FilterAgencies(WithVerified(agencies, b), searchTerm, f) == WithVerified(FilterAgencies(agencies, searchTerm, f), b)
    decreases |agencies|
  {
    if agencies != [] {
      var flagged := WithVerified(agencies, b);
      assert flagged[0] == agencies[0].(isVerified := b);
      assert flagged[1..] == WithVerified(agencies[1..], b);
      assert Keep(flagged[0], searchTerm, f) == Keep(agencies[0], searchTerm, f);
      VerifiedOffIgnoresVerification(agencies[1..], searchTerm, f, b);
      var rest := FilterAgencies(agencies[1..], searchTerm, f);
      if Keep(agencies[0], searchTerm, f) {
        assert WithVerified([agencies[0]] + rest, b) == [flagged[0]] + WithVerified(rest, b);
      }
    }
  }

  /** Every experience option is read as the number it shows. */
  lemma ExperienceOptionsThresholds()
    ensures forall e :: e in ExperienceOptions ==> ExperienceThreshold(NatToString(e)) == Some(e)
    ensures ExperienceThreshold("5+") == Some(5)
  {
    forall e | e in ExperienceOptions ensures ExperienceThreshold(NatToString(e)) == Some(e) {
      ParseIntOfNatToString(e, "");
      assert NatToString(e) + "" == NatToString(e);
      assert NatToString(e) != "5+" by {
        assert IsDigit(NatToString(e)[|NatToString(e)| - 1]);
      }
    }
  }

  /** An experience value parseInt cannot read filters out every agency. */
  lemma UnreadableExperienceKeepsNone(agencies: seq<Agency>, searchTerm: string, f: Filters)
    requires f.experience != "" && ExperienceThreshold(f.experience) == None
    ensures FilterAgencies(agencies, searchTerm, f) == []
  {
  }

  // ---------------------------------------------------------------------
  // Clearing the filters

  /** The search box and the filters, the state `handleClearFilters` resets. */
  datatype SearchState = SearchState(searchTerm: string, filters: Filters)

  /** `handleClearFilters`: after it the page lists every loaded agency. */
  function ClearFilters(s: SearchState): (r: SearchState)
    ensures r.filters == DefaultFilters
    ensures forall agencies :: FilterAgencies(agencies, r.searchTerm, r.filters) == agencies
  {
    DefaultFiltersKeepEveryList();
    SearchState("", DefaultFilters)
  }

  lemma DefaultFiltersKeepEveryList()
    ensures forall agencies :: FilterAgencies(agencies, "", DefaultFilters) == agencies
  {
    forall agencies: seq<Agency> ensures FilterAgencies(agencies, "", DefaultFilters) == agencies {
      DefaultFiltersKeepAll(agencies);
    }
  }

  // ---------------------------------------------------------------------
  // The city list

  /** The position of the first occurrence of `x` in `xs`. */
  function FirstIndex<T(==)>(xs: seq<T>, x: T): (i: nat)
    requires x in xs
    ensures i < |xs| && xs[i] == x && x !in xs[..i]
  {
    if xs[0] == x then 0 else 1 + FirstIndex(xs[1..], x)
  }

  lemma {:induction false} FirstIndexInPrefix<T>(xs: seq<T>, y: T, x: T)
    requires x in xs
    ensures FirstIndex(xs + [y], x) == FirstIndex(xs, x)
  {
    if xs[0] != x {
      assert (xs + [y])[1..] == xs[1..] + [y];
      FirstIndexInPrefix(xs[1..], y, x);
    }
  }

  lemma {:induction false} FirstIndexOfNew<T>(xs: seq<T>, y: T)
    requires y !in xs
    ensures FirstIndex(xs + [y], y) == |xs|
  {
    if xs != [] {
      assert (xs + [y])[1..] == xs[1..] + [y];
      FirstIndexOfNew(xs[1..], y);
    }
  }

  predicate NoDuplicates<T(==)>(xs: seq<T>) {
    forall i, j :: 0 <= i < j < |xs| ==> xs[i] != xs[j]
  }

  /** `[...new Set(xs)]`: each element once, in the order of its first occurrence. */
  function Dedup(xs: seq<string>): (r: seq<string>)
    ensures NoDuplicates(r)
    ensures forall x :: x in r <==> x in xs
    ensures forall i, j :: 0 <= i < j < |r| ==> FirstIndex(xs, r[i]) < FirstIndex(xs, r[j])
    decreases |xs|
  {
    if xs == [] then []
    else
      var prefix := xs[..|xs| - 1];
      var last := xs[|xs| - 1];
      assert xs == prefix + [last];
      var rest := Dedup(prefix);
      DedupStep(prefix, last, rest);
      if last in rest then rest else rest + [last]
  }

  lemma DedupStep(prefix: seq<string>, last: string, rest: seq<string>)
    requires forall x :: x in rest <==> x in prefix
    requires forall i, j :: 0 <= i < j < |rest| ==> FirstIndex(prefix, rest[i]) < FirstIndex(prefix, rest[j])
    ensures forall i, j :: 0 <= i < j < |rest| ==> FirstIndex(prefix + [last], rest[i]) < FirstIndex(prefix + [last], rest[j])
    ensures last !in rest ==> forall i :: 0 <= i < |rest| ==> FirstIndex(prefix + [last], rest[i]) < FirstIndex(prefix + [last], last)
  {
    forall x | x in prefix ensures FirstIndex(prefix + [last], x) == FirstIndex(prefix, x) {
      FirstIndexInPrefix(prefix, last, x);
    }
    if last !in rest {
      FirstIndexOfNew(prefix, last);
    }
  }

  function CityNames(agencies: seq<Agency>): (r: seq<string>)
    ensures |r| == |agencies|
    ensures forall i :: 0 <= i < |r| ==> r[i] == agencies[i].city
  {
    seq(|agencies|, i requires 0 <= i < |agencies| => agencies[i].city)
  }

  /** The `cities` memo: every loaded city once, in first-occurrence order. */
  function Cities(agencies: seq<Agency>): (r: seq<string>)
    ensures NoDuplicates(r)
    ensures forall c :: c in r <==> c in CityNames(agencies)
    ensures forall c :: c in r <==> exists a :: a in agencies && a.city == c
    ensures forall i, j :: 0 <= i < j < |r| ==> FirstIndex(CityNames(agencies), r[i]) < FirstIndex(CityNames(agencies), r[j])
  {
    var names := CityNames(agencies);
    assert forall c :: c in names <==> exists a :: a in agencies && a.city == c by {
      forall c | c in names ensures exists a :: a in agencies && a.city == c {
        var i :| 0 <= i < |names| && names[i] == c;
        assert agencies[i] in agencies;
      }
      forall c | exists a :: a in agencies && a.city == c ensures c in names {
        var a :| a in agencies && a.city == c;
        var i :| 0 <= i < |agencies| && agencies[i] == a;
        assert names[i] == c;
      }
    }
    Dedup(names)
  }

  /** Every city a filter can select from the list keeps at least the agency it came from. */
  lemma CityOptionKeepsItsAgencies(agencies: seq<Agency>, c: string, a: Agency)
    requires c in Cities(agencies) && a in agencies && a.city == c
    ensures a in FilterAgencies(agencies, "", DefaultFilters.(city := c))
  {
    assert ToLower("") == "";
    ContainsEmpty(ToLower(a.name));
  }

  // ---------------------------------------------------------------------
  // Loading

  /**
   * What `fetchAgencies` settled with: a fulfilled result carries an optional
   * message and optional data; a rejection carries an optional message.
   */
  datatype LoadOutcome =
    | Fulfilled(message: Option<string>, data: Option<seq<Agency>>)
    | Rejected(errorMessage: Option<string>)

  datatype LoadResult = LoadResult(agencies: seq<Agency>, error: Option<string>, loading: bool)

  const FailedToLoad := "Failed to load agencies"

  predicate IsNotFoundMessage(message: string) {
    Contains(message, "Profile not found") || Contains(message, "Agencies not found")
  }

  /** `loadAgencies`: the list, the error and the loading flag after the fetch settles. */
  function ClassifyLoad(outcome: LoadOutcome, previousError: Option<string>): (r: LoadResult)
    ensures !r.loading
    ensures outcome.Rejected? ==> r.agencies == []
    ensures outcome.Fulfilled? && IsNotFoundMessage(OrElse(outcome.message, "")) ==> r.agencies == [] && r.error == None
    ensures outcome.Fulfilled? && !IsNotFoundMessage(OrElse(outcome.message, "")) ==>
              r.error == previousError
              && r.agencies == (if outcome.data.Some? then outcome.data.value else [])
    ensures outcome.Rejected? ==>
              (r.error == None <==> Contains(OrElse(outcome.errorMessage, FailedToLoad), "404"))
    ensures outcome.Rejected? && r.error.Some? ==> r.error.value == OrElse(outcome.errorMessage, FailedToLoad)
  {
    match outcome
    case Fulfilled(message, data) =>
      if IsNotFoundMessage(OrElse(message, "")) then LoadResult([], None, false)
      else LoadResult(if data.Some? then data.value else [], previousError, false)
    case Rejected(errorMessage) =>
      var errMsg := OrElse(errorMessage, FailedToLoad);
      LoadResult([], if Contains(errMsg, "404") then None else Some(errMsg), false)
  }

  /**
   * The `error` state never holds a not-found or a 404 failure: a new error
   * is set only for a rejection whose message names neither.
   */
  lemma LoadErrorIsGenuine(outcome: LoadOutcome, previousError: Option<string>)
    ensures var r := ClassifyLoad(outcome, previousError);
            r.error.Some? && r.error != previousError ==>
              outcome.Rejected? && !Contains(r.error.value, "404") && r.agencies == []
  {
  }

  /** The default message is not a 404, so a rejection without a message sets the `error` state. */
  lemma RejectionWithoutMessageSetsError(previousError: Option<string>)
    ensures ClassifyLoad(Rejected(None), previousError).error == Some(FailedToLoad)
  {
    var msg := FailedToLoad;
    assert '4' !in msg;
    forall k | 0 <= k < |msg| ensures msg[k] != '4' {
      assert msg[k] in msg;
    }
    NotContainsWithoutFirstChar(msg, "404");
  }

  /** A string without the first character of `sub` does not include `sub`. */
  lemma {:induction false} NotContainsWithoutFirstChar(s: string, sub: string)
    requires sub != []
    requires forall k :: 0 <= k < |s| ==> s[k] != sub[0]
    ensures !Contains(s, sub)
    decreases |s|
  {
    if s != [] {
      assert !StartsWith(s, sub) by {
        if |sub| <= |s| {
          assert s[..|sub|][0] == s[0] != sub[0];
        }
      }
      NotContainsWithoutFirstChar(s[1..], sub);
    }
  }
}
