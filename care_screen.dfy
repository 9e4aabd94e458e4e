/** The state of the care-records app screen (web preview and stand-alone web app alike): the loaded roster,
    the selected resident, the manual bed/name input, the first day of the displayed week and the loaded
    records, with the handlers that change them. */
module CareScreen {
  import opened Text
  import opened Search
  import opened Calendar
  import opened Residents
  import opened CareGrid

  /** What pressing search on the manual input does. */
  datatype SearchOutcome =
    | Ignored                  // blank input: nothing happens
    | Selected(patient: Patient)
    | NoMatch                  // the "no matching resident" alert

  /** `handleSearch`'s decision: ignore blank input; otherwise select the first resident whose bed code equals
      the untrimmed input ignoring case or whose name contains it; alert when there is none. */
  function SearchOutcomeOf(patients: seq<Patient>, input: string): (o: SearchOutcome)
    ensures o.Ignored? <==> IsBlank(input)
    ensures o.Selected? ==> exists i :: (0 <= i < |patients| && patients[i] == o.patient
      && SearchMatches(o.patient, input) && forall j :: 0 <= j < i ==> !SearchMatches(patients[j], input))
    ensures o.NoMatch? <==> !IsBlank(input) && forall p :: p in patients ==> !SearchMatches(p, input)
  {
    if IsBlank(input) then Ignored
    else match SearchResult(patients, input)
      case Some(p) => Selected(p)
      case None => NoMatch
  }

  /** The match is tested against the input as typed: surrounding spaces are only ignored by the blank test,
      so a bed code typed with a trailing space finds no resident through the bed-code test. */
  lemma SearchUsesUntrimmedInput()
    ensures SearchOutcomeOf([Patient(1, "A01", "陳大明", None, None)], "A01 ") == NoMatch
    ensures SearchOutcomeOf([Patient(1, "A01", "陳大明", None, None)], "a01") == Selected(Patient(1, "A01", "陳大明", None, None))
  {
    var p := Patient(1, "A01", "陳大明", None, None);
    assert !IsJsWhitespace('A') && Trim("A01 ") != [];
    assert Lower(p.bedCode) != Lower("A01 ");
    assert !Contains(p.name, "A01 ");
    assert SearchMatches(p, "a01");
    assert Trim("a01") != [] by { assert !IsJsWhitespace('a'); }
  }

  class CareScreenState {
    var patients: seq<Patient>
    var loading: bool
    var searchQuery: string
    var selectedPatient: Option<Patient>
    var manualBedInput: string
    var weekStartDate: Day
    var activeCareTab: CareTab
    var records: WeekRecords

    /** The displayed week always starts on a Monday. */
    ghost predicate Valid()
      reads this
    {
      Weekday(weekStartDate) == Monday
    }

    /** The screen as it mounts on day `today`: the roster loading, nothing selected, the patrol tab,
        and the week that contains `today`. */
    constructor (today: Day)
      ensures Valid()
      ensures patients == [] && loading && searchQuery == [] && selectedPatient == None && manualBedInput == []
      ensures weekStartDate == WeekStart(today) && weekStartDate <= today < weekStartDate + 7
      ensures activeCareTab == Patrol && records == WeekRecords([], [], [], [])
    {
      patients := [];
      loading := true;
      searchQuery := [];
      selectedPatient := None;
      manualBedInput := [];
      weekStartDate := WeekStart(today);
      activeCareTab := Patrol;
      records := WeekRecords([], [], [], []);
    }

    /** The roster query's answer (`None` when it failed or threw): rows replace the list only when the
        query returned data without error, and loading ends either way. */
    method PatientsLoaded(rows: Option<seq<Patient>>)
      modifies this
      ensures patients == (if rows.Some? then rows.value else old(patients)) && !loading
      ensures searchQuery == old(searchQuery) && selectedPatient == old(selectedPatient)
      ensures manualBedInput == old(manualBedInput) && weekStartDate == old(weekStartDate)
      ensures activeCareTab == old(activeCareTab) && records == old(records)
    {
      if rows.Some? {
        patients := rows.value;
      }
      loading := false;
    }

    /** The four record queries' answers: each list is replaced only when its query returned data. */
    method RecordsLoaded(patrol: Option<seq<CareRecord>>, diaper: Option<seq<CareRecord>>,
                         position: Option<seq<CareRecord>>, restraint: Option<seq<CareRecord>>)
      modifies this`records
      ensures records.patrolRounds == if patrol.Some? then patrol.value else old(records.patrolRounds)
      ensures records.diaperRecords == if diaper.Some? then diaper.value else old(records.diaperRecords)
      ensures records.positionRecords == if position.Some? then position.value else old(records.positionRecords)
      ensures records.restraintRecords == if restraint.Some? then restraint.value else old(records.restraintRecords)
    {
      if patrol.Some? { records := records.(patrolRounds := patrol.value); }
      if diaper.Some? { records := records.(diaperRecords := diaper.value); }
      if position.Some? { records := records.(positionRecords := position.value); }
      if restraint.Some? { records := records.(restraintRecords := restraint.value); }
    }

    /** `handleSearch`: on a match, select that resident and clear the input; otherwise change nothing. */
    method HandleSearch() returns (outcome: SearchOutcome)
      modifies this`selectedPatient, this`manualBedInput
      ensures outcome == SearchOutcomeOf(patients, old(manualBedInput))
      ensures outcome.Selected? ==> selectedPatient == Some(outcome.patient) && manualBedInput == []
      ensures !outcome.Selected? ==> selectedPatient == old(selectedPatient) && manualBedInput == old(manualBedInput)
    {
      var input := manualBedInput;
      if IsBlank(input) {
        return Ignored;
      }
      var found := SearchResult(patients, input);
      if found.Some? {
        selectedPatient := found;
        manualBedInput := [];
        outcome := Selected(found.value);
      } else {
        outcome := NoMatch;
      }
    }

    /** `weekDates`: the seven days from the week's first day, built one at a time. */
    method WeekDates() returns (dates: seq<Day>)
      ensures |dates| == 7
      ensures forall i :: 0 <= i < 7 ==> dates[i] == weekStartDate + i
    {
      dates := [];
      for i := 0 to 7
        invariant |dates| == i
        invariant forall k :: 0 <= k < i ==> dates[k] == weekStartDate + k
      {
        dates := dates + [weekStartDate + i];
      }
    }

    /** The previous-week button. */
    method PreviousWeek()
      requires Valid()
      modifies this`weekStartDate
      ensures Valid() && weekStartDate == old(weekStartDate) - 7
    {
      WeekShiftKeepsMonday(weekStartDate);
      weekStartDate := weekStartDate - 7;
    }

    /** The this-week button: back to the Monday of the week containing `today`. */
    method ThisWeek(today: Day)
      modifies this`weekStartDate
      ensures Valid() && weekStartDate == WeekStart(today) && weekStartDate <= today < weekStartDate + 7
    {
      weekStartDate := WeekStart(today);
    }

    /** The next-week button. */
    method NextWeek()
      requires Valid()
      modifies this`weekStartDate
      ensures Valid() && weekStartDate == old(weekStartDate) + 7
    {
      WeekShiftKeepsMonday(weekStartDate);
      weekStartDate := weekStartDate + 7;
    }
  }

  /** The displayed week's columns read Monday to Sunday, whichever week is shown. */
  lemma WeekDatesMondayToSunday(dates: seq<Day>, weekStart: Day)
    requires Weekday(weekStart) == Monday
    requires |dates| == 7 && forall i :: 0 <= i < 7 ==> dates[i] == weekStart + i
    ensures forall i :: 0 <= i < 7 ==> Weekday(dates[i]) == (i + 1) % 7
  {
    forall i | 0 <= i < 7 ensures Weekday(dates[i]) == (i + 1) % 7 {
      WeekColumnsMondayToSunday(weekStart, i);
    }
  }

  /** Going forward a week and back again, or back and forward, shows the same week. */
  method NavigationRoundTrip(screen: CareScreenState)
    requires screen.Valid()
    modifies screen
    ensures screen.Valid() && screen.weekStartDate == old(screen.weekStartDate)
  {
    screen.NextWeek();
    screen.PreviousWeek();
    screen.PreviousWeek();
    screen.NextWeek();
  }
}
