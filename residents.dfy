/** Residents as the screens see them, the roster filter of the home list, the age column,
    and the rule by which a typed bed code or name picks a resident. */
module Residents {
  import opened Text
  import opened Search
  import opened Calendar

  /** A row of the resident table, reduced to the columns the screens compute with:
      resident id, bed code (床號), full Chinese name (中文姓名), optional birth date (出生日期)
      and the optional id of the bed the resident occupies (bed_id). */
  datatype Patient = Patient(id: int, bedCode: string, name: string, birthDate: Option<CivilDate>, bedId: Option<string>)

  /** A row of the bed table: its id and the bed number printed on it. */
  datatype Bed = Bed(id: string, bedNumber: string)

  /** The roster filter's test: an empty query, a name containing the query,
      or a bed code containing the query with both lower-cased. */
  predicate RosterKeeps(p: Patient, query: string)
  {
    query == [] || Contains(p.name, query) || Contains(Lower(p.bedCode), Lower(query))
  }

  /** The explicit empty-query test is redundant: every string contains the empty string. */
  lemma RosterEmptyTestRedundant(p: Patient, query: string)
    ensures RosterKeeps(p, query) <==> Contains(p.name, query) || Contains(Lower(p.bedCode), Lower(query))
  {
    if query == [] {
      ContainsEmpty(p.name);
    }
  }

  /** `patients.filter(...)` for the home list. */
  function FilterPatients(patients: seq<Patient>, query: string): (r: seq<Patient>)
    ensures |r| <= |patients|
    ensures forall p :: p in r <==> p in patients && RosterKeeps(p, query)
  {
    Filter(patients, p => RosterKeeps(p, query))
  }

  /** The home list keeps the roster's order: its `k`-th entry is the `k`-th resident, in roster order,
      that passes the filter, and every resident that passes is listed. */
  lemma FilterPatientsKeepsOrder(patients: seq<Patient>, query: string)
    ensures var idx := KeptIndices(patients, p => RosterKeeps(p, query));
      && |FilterPatients(patients, query)| == |idx|
      && (forall k :: 0 <= k < |idx| ==> FilterPatients(patients, query)[k] == patients[idx[k]])
      && (forall k, l :: 0 <= k < l < |idx| ==> idx[k] < idx[l])
      && (forall i :: 0 <= i < |patients| ==> (i in idx <==> RosterKeeps(patients[i], query)))
  {
    FilterKeepsOrder(patients, p => RosterKeeps(p, query));
  }

  /** With an empty query the home list shows every resident, in order. */
  lemma FilterEmptyQueryKeepsAll(patients: seq<Patient>)
    ensures FilterPatients(patients, []) == patients
  {
    FilterAll(patients, p => RosterKeeps(p, []));
  }

  /** `calculateAge`: no age without a birth date; otherwise the difference of the years,
      less one when the month difference is negative or the months agree and the day of month is not yet reached. */
  function CalculateAge(birthDate: Option<CivilDate>, today: CivilDate): (age: Option<int>)
    ensures age.None? <==> birthDate.None?
    ensures birthDate.Some? ==>
      var years := today.year - birthDate.value.year;
      && years - 1 <= age.value <= years
      && (age.value == years - 1 <==> !OnOrBefore(Anniversary(birthDate.value, years), today))
  {
    match birthDate
    case None => None
    case Some(birth) =>
      var age := today.year - birth.year;
      var m := today.month - birth.month;
      Some(if m < 0 || (m == 0 && today.day < birth.day) then age - 1 else age)
  }

  /** The age is the number of anniversaries of the birth date that have been reached by today:
      the `age`-th has, the next one has not. */
  lemma AgeCountsAnniversaries(birth: CivilDate, today: CivilDate)
    ensures var age := CalculateAge(Some(birth), today).value;
      OnOrBefore(Anniversary(birth, age), today) && !OnOrBefore(Anniversary(birth, age + 1), today)
  {
  }

  /** Anyone born on or before today has a non-negative age. */
  lemma AgeNonNegative(birth: CivilDate, today: CivilDate)
    requires OnOrBefore(birth, today)
    ensures CalculateAge(Some(birth), today).value >= 0
  {
  }

  /** The manual search's test (`handleSearch` on the home screen, and the name fallback of the mobile
      scan screen): the bed code equals the input ignoring ASCII case, or the name contains the input. */
  predicate SearchMatches(p: Patient, input: string)
  {
    Lower(p.bedCode) == Lower(input) || Contains(p.name, input)
  }

  /** The resident a search for `input` selects: the first one that matches. */
  function SearchResult(patients: seq<Patient>, input: string): (r: Option<Patient>)
    ensures r.Some? ==> r.value in patients && SearchMatches(r.value, input)
    ensures r.Some? ==> exists i :: (0 <= i < |patients| && patients[i] == r.value
      && forall j :: 0 <= j < i ==> !SearchMatches(patients[j], input))
    ensures r.None? <==> forall p :: p in patients ==> !SearchMatches(p, input)
  {
    Find(patients, p => SearchMatches(p, input))
  }

  /** Typing a resident's bed code exactly finds a resident whenever that resident is listed. */
  lemma SearchFindsExactBedCode(patients: seq<Patient>, p: Patient)
    requires p in patients
    ensures SearchResult(patients, p.bedCode).Some?
  {
    assert SearchMatches(p, p.bedCode);
  }
}
