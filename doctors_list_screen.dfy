/** The doctor directory (src/screens/patient/DoctorsListScreen.tsx): which
    list is fetched for the route's specialty, the two-stage filter over
    the fetched doctors (specialty chip, then search text) and the message
    of the empty state. */
module DoctorsListScreen {
  import opened Types
  import opened Seqs
  import opened Text

  /** The chip that selects every specialty. */
  const AllSpecialties: string := "All"

  const FilterHint: string := "Try adjusting your search or filter criteria"
  const NoneAvailable: string := "No verified doctors available at the moment"

  /** The specialty-chip stage: the doctor's specialty is the selected one. */
  function HasSpecialty(selected: string): Doctor -> bool
  {
    (d: Doctor) => d.specialty == selected
  }

  /** The search stage: the lowered query occurs in the lowered name or in
      the lowered specialty. */
  function MatchesQuery(query: string): Doctor -> bool
  {
    (d: Doctor) =>
      Contains(ToLower(d.name), ToLower(query)) || Contains(ToLower(d.specialty), ToLower(query))
  }

  /** Whether a doctor is listed under a chip and a search text: the chip is
      "All" or names the doctor's specialty, and the search text is empty or
      found, ignoring ASCII case, in the doctor's name or specialty. */
  predicate Listed(d: Doctor, selected: string, query: string)
  {
    && (selected == AllSpecialties || d.specialty == selected)
    && (query == "" || Contains(ToLower(d.name), ToLower(query)) || Contains(ToLower(d.specialty), ToLower(query)))
  }

  function IsListed(selected: string, query: string): Doctor -> bool
  {
    (d: Doctor) => Listed(d, selected, query)
  }

  /** `filterDoctors`: narrows the list stage by stage. The result is the
      fetched list filtered by `Listed`: the doctors it keeps are listed,
      every listed doctor is kept, and the order and multiplicities of the
      fetched list are preserved. */
  method FilterDoctors(doctors: seq<Doctor>, selected: string, query: string) returns (filtered: seq<Doctor>)
    ensures filtered == Filter(doctors, IsListed(selected, query))
    ensures forall i :: 0 <= i < |filtered| ==> filtered[i] in doctors && Listed(filtered[i], selected, query)
    ensures forall i :: 0 <= i < |doctors| && Listed(doctors[i], selected, query) ==> doctors[i] in filtered
    ensures SubseqOf(filtered, doctors)
  {
    filtered := doctors;
    if selected != AllSpecialties {
      filtered := Filter(filtered, HasSpecialty(selected));
    }
    assert filtered == Filter(doctors, IsListed(selected, "")) by {
      if selected != AllSpecialties {
        forall i | 0 <= i < |doctors| ensures IsListed(selected, "")(doctors[i]) == HasSpecialty(selected)(doctors[i]) {
        }
        FilterSame(doctors, HasSpecialty(selected), IsListed(selected, ""));
      } else {
        FilterAll(doctors, IsListed(selected, ""));
      }
    }
    if query != "" {
      filtered := Filter(filtered, MatchesQuery(query));
      FilterFilter(doctors, IsListed(selected, ""), MatchesQuery(query), IsListed(selected, query));
    } else {
      FilterSame(doctors, IsListed(selected, ""), IsListed(selected, query));
    }
    FilterIsSubseq(doctors, IsListed(selected, query));
    var r := filtered;
    forall i | 0 <= i < |r| ensures Listed(r[i], selected, query) {
      assert IsListed(selected, query)(r[i]);
    }
  }

  /** Two predicates that agree on every element filter alike. */
  lemma {:induction false} FilterSame<T>(s: seq<T>, p: T -> bool, q: T -> bool)
    requires forall i :: 0 <= i < |s| ==> p(s[i]) == q(s[i])
    ensures Filter(s, p) == Filter(s, q)
  {
    if s != [] {
      FilterSame(s[1..], p, q);
      assert s == [s[0]] + s[1..];
      FilterConcat([s[0]], s[1..], p);
      FilterConcat([s[0]], s[1..], q);
    }
  }

  /** With the "All" chip and no search text every fetched doctor is shown. */
  lemma NoFilterShowsAll(doctors: seq<Doctor>)
    ensures Filter(doctors, IsListed(AllSpecialties, "")) == doctors
  {
    FilterAll(doctors, IsListed(AllSpecialties, ""));
  }

  /** The search ignores the case of the query: a query and its lowered
      form list the same doctors. */
  lemma SearchIgnoresQueryCase(doctors: seq<Doctor>, selected: string, query: string)
    ensures Filter(doctors, IsListed(selected, ToLower(query))) == Filter(doctors, IsListed(selected, query))
  {
    ToLowerIdempotent(query);
    assert ToLower(query) == "" <==> query == "";
    forall i | 0 <= i < |doctors|
      ensures IsListed(selected, ToLower(query))(doctors[i]) == IsListed(selected, query)(doctors[i])
    {
    }
    FilterSame(doctors, IsListed(selected, ToLower(query)), IsListed(selected, query));
  }

  /** The number of doctors shown under a chip never exceeds the number
      shown under "All" with the same search text. */
  lemma ChipOnlyNarrows(doctors: seq<Doctor>, selected: string, query: string)
    ensures |Filter(doctors, IsListed(selected, query))| <= |Filter(doctors, IsListed(AllSpecialties, query))|
  {
    var narrow := IsListed(selected, query);
    var wide := IsListed(AllSpecialties, query);
    FilterFilter(doctors, wide, narrow, narrow);
  }

  /** The explanation shown under "No doctors found". */
  function EmptyStateMessage(selected: string, query: string): (m: string)
    ensures m == FilterHint <==> query != "" || selected != AllSpecialties
    ensures m == NoneAvailable <==> query == "" && selected == AllSpecialties
  {
    if query != "" || selected != AllSpecialties then FilterHint else NoneAvailable
  }

  /** The "none available" message is shown only when nothing was fetched:
      with no chip and no search text an empty list means an empty fetch. */
  lemma EmptyStateHonest(doctors: seq<Doctor>, selected: string, query: string)
    requires Filter(doctors, IsListed(selected, query)) == []
    requires EmptyStateMessage(selected, query) == NoneAvailable
    ensures doctors == []
  {
    NoFilterShowsAll(doctors);
  }

  /** Which list `loadDoctors` asks for. */
  datatype Fetch = AllDoctors | BySpecialty(specialty: string)

  /** The route's specialty selects the per-specialty list when it is
      present, non-empty and not "All". */
  function FetchFor(routeSpecialty: Option<string>): (f: Fetch)
    ensures f.BySpecialty? <==>
      routeSpecialty.Some? && routeSpecialty.value != "" && routeSpecialty.value != AllSpecialties
    ensures f.BySpecialty? ==> f.specialty == routeSpecialty.value
  {
    if routeSpecialty.Some? && routeSpecialty.value != "" && routeSpecialty.value != AllSpecialties then
      BySpecialty(routeSpecialty.value)
    else AllDoctors
  }

  /** The chip selected once the route is read: a non-empty route
      specialty replaces the current one (even "All"). */
  function SelectedAfterRoute(routeSpecialty: Option<string>, current: string): (s: string)
    ensures routeSpecialty.Some? && routeSpecialty.value != "" ==> s == routeSpecialty.value
    ensures routeSpecialty.None? || routeSpecialty.value == "" ==> s == current
  {
    if routeSpecialty.Some? && routeSpecialty.value != "" then routeSpecialty.value else current
  }

  /** Whenever the route makes the screen fetch one specialty, the chip
      selected from the same route is that specialty, not "All". */
  lemma RouteFetchAndChipAgree(routeSpecialty: Option<string>, current: string)
    requires FetchFor(routeSpecialty).BySpecialty?
    ensures SelectedAfterRoute(routeSpecialty, current) == FetchFor(routeSpecialty).specialty
    ensures SelectedAfterRoute(routeSpecialty, current) != AllSpecialties
  {
  }

  /** `response.doctors || []`. */
  function DoctorsOrEmpty(response: Option<seq<Doctor>>): (r: seq<Doctor>)
    ensures response.Some? ==> r == response.value
    ensures response.None? ==> r == []
  {
    if response.Some? then response.value else []
  }
}
