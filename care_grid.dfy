/** The weekly care grid of the care-records screen: the two fixed slot tables, which tab shows which
    table, how each (slot, day) cell finds its record, and the labels, placeholders and colours it shows.
    The same code appears in the web preview and in the stand-alone web app. */
module CareGrid {
  import opened Search
  import opened Calendar

  // ---------------------------------------------------------------- slot tables

  /** TIME_SLOTS: every two hours from 07:00, wrapping past midnight. */
  const TimeSlots: seq<string> :=
    ["07:00", "09:00", "11:00", "13:00", "15:00", "17:00", "19:00", "21:00", "23:00", "01:00", "03:00", "05:00"]

  /** DIAPER_SLOTS: six labelled hour ranges. */
  const DiaperSlots: seq<string> := ["7AM-10AM", "11AM-2PM", "3PM-6PM", "7PM-10PM", "11PM-2AM", "3AM-6AM"]

  function DigitValue(c: char): int
  {
    c as int - '0' as int
  }

  /** Minutes after midnight of an `HH:MM` label; -1 for anything else. */
  function ClockMinutes(slot: string): int
  {
    if |slot| == 5 && slot[2] == ':' then
      (DigitValue(slot[0]) * 10 + DigitValue(slot[1])) * 60 + DigitValue(slot[3]) * 10 + DigitValue(slot[4])
    else -1
  }

  /** Minutes of the `i`-th clock slot, written without the modulus. */
  lemma {:induction false} TimeSlotMinutes(i: nat)
    requires i < 12
    ensures ClockMinutes(TimeSlots[i]) == if i <= 8 then 7 * 60 + 120 * i else 120 * i - 1020
  {
    if i < 6 {
      if i == 0 {} else if i == 1 {} else if i == 2 {} else if i == 3 {} else if i == 4 {} else {}
    } else {
      if i == 6 {} else if i == 7 {} else if i == 8 {} else if i == 9 {} else if i == 10 {} else {}
    }
  }

  /** The twelve clock slots start at 07:00 and are two hours apart modulo a day. */
  lemma TimeSlotsEveryTwoHours()
    ensures |TimeSlots| == 12
    ensures forall i :: 0 <= i < 12 ==> ClockMinutes(TimeSlots[i]) == (7 * 60 + 120 * i) % 1440
  {
    forall i | 0 <= i < 12 ensures ClockMinutes(TimeSlots[i]) == (7 * 60 + 120 * i) % 1440 {
      TimeSlotMinutes(i);
    }
  }

  /** Going from one clock slot to the next, the last wrapping round to the first, always moves two hours on;
      so the twelve labels cover the day and no two are the same. */
  lemma TimeSlotsWrapAndDistinct()
    ensures forall i, j :: 0 <= i < 12 && j == (i + 1) % 12 ==>
      ClockMinutes(TimeSlots[j]) == (ClockMinutes(TimeSlots[i]) + 120) % 1440
    ensures forall i, j :: 0 <= i < j < 12 ==> TimeSlots[i] != TimeSlots[j]
  {
    forall i, j | 0 <= i < 12 && j == (i + 1) % 12
      ensures ClockMinutes(TimeSlots[j]) == (ClockMinutes(TimeSlots[i]) + 120) % 1440
    {
      TimeSlotMinutes(i);
      TimeSlotMinutes(j);
    }
    forall i, j | 0 <= i < j < 12 ensures TimeSlots[i] != TimeSlots[j] {
      TimeSlotMinutes(i);
      TimeSlotMinutes(j);
    }
  }

  /** The diaper table has six labels and no two are the same, so a diaper record matches at most one row. */
  lemma DiaperSlotsDistinct()
    ensures |DiaperSlots| == 6
    ensures forall i, j :: 0 <= i < j < 6 ==> DiaperSlots[i] != DiaperSlots[j]
  {
    forall i, j | 0 <= i < j < 6 ensures DiaperSlots[i] != DiaperSlots[j] {
      assert i == 0 || i == 1 || i == 2 || i == 3 || i == 4;
      assert j == 1 || j == 2 || j == 3 || j == 4 || j == 5;
    }
  }

  // ---------------------------------------------------------------- tabs

  /** The six care tabs of the care-records screen. */
  datatype CareTab = Patrol | Diaper | IntakeOutput | Restraint | Position | ToiletTraining

  /** Intake/output and toilet training show a "coming soon" panel instead of a grid. */
  predicate HasGrid(tab: CareTab)
  {
    !(tab == IntakeOutput || tab == ToiletTraining)
  }

  /** The slot table of a tab: diapers use the range slots, every other tab the clock slots. */
  function SlotsFor(tab: CareTab): (slots: seq<string>)
    ensures |slots| == if tab == Diaper then 6 else 12
    ensures tab == Diaper ==> slots == DiaperSlots
    ensures tab != Diaper ==> slots == TimeSlots
  {
    if tab == Diaper then DiaperSlots else TimeSlots
  }

  // ---------------------------------------------------------------- records

  /** The four kinds of care record, with the fields the grid reads. Dates are day numbers. */
  datatype CareRecord =
    | PatrolRound(patrolDate: Day, patrolTime: string, scheduledTime: string, recorder: string)
    | DiaperChange(changeDate: Day, timeSlot: string, hasUrine: bool, hasStool: bool, hasNone: bool, recorder: string)
    | PositionChange(changeDate: Day, scheduledTime: string, position: string, recorder: string)
    | RestraintObservation(observationDate: Day, observationTime: string, scheduledTime: string,
                           observationStatus: string, recorder: string)

  /** The four record lists the screen loads for the selected resident and week. */
  datatype WeekRecords = WeekRecords(
    patrolRounds: seq<CareRecord>,
    diaperRecords: seq<CareRecord>,
    positionRecords: seq<CareRecord>,
    restraintRecords: seq<CareRecord>)

  /** The list a tab searches; tabs without a grid have none. */
  function RecordsFor(tab: CareTab, recs: WeekRecords): seq<CareRecord>
  {
    match tab
    case Patrol => recs.patrolRounds
    case Diaper => recs.diaperRecords
    case Position => recs.positionRecords
    case Restraint => recs.restraintRecords
    case _ => []
  }

  /** The `find` test of each tab: the record is of the tab's kind, its date field is the cell's date
      and its slot field is the row's slot. */
  predicate RecordAt(tab: CareTab, r: CareRecord, date: Day, slot: string)
  {
    match tab
    case Patrol => r.PatrolRound? && r.patrolDate == date && r.scheduledTime == slot
    case Diaper => r.DiaperChange? && r.changeDate == date && r.timeSlot == slot
    case Position => r.PositionChange? && r.changeDate == date && r.scheduledTime == slot
    case Restraint => r.RestraintObservation? && r.observationDate == date && r.scheduledTime == slot
    case _ => false
  }

  /** The test as the callback handed to `find`. */
  function IsAt(tab: CareTab, date: Day, slot: string): CareRecord -> bool
  {
    r => RecordAt(tab, r, date, slot)
  }

  /** The tab a record belongs to. */
  function TabOf(r: CareRecord): CareTab
  {
    match r
    case PatrolRound(_, _, _, _) => Patrol
    case DiaperChange(_, _, _, _, _, _) => Diaper
    case PositionChange(_, _, _, _) => Position
    case RestraintObservation(_, _, _, _, _) => Restraint
  }

  /** The date of a record, whatever its kind calls the field. */
  function DateOf(r: CareRecord): Day
  {
    match r
    case PatrolRound(d, _, _, _) => d
    case DiaperChange(d, _, _, _, _, _) => d
    case PositionChange(d, _, _, _) => d
    case RestraintObservation(d, _, _, _, _) => d
  }

  /** The slot a record is filed under: `time_slot` for a diaper change, `scheduled_time` for the others. */
  function SlotOf(r: CareRecord): (slot: string)
    ensures r.DiaperChange? ==> slot == r.timeSlot
    ensures !r.DiaperChange? ==> slot == r.scheduledTime
  {
    if r.DiaperChange? then r.timeSlot else r.scheduledTime
  }

  /** A record fills a tab's cell exactly when it is of that tab's kind and its date and slot are the cell's. */
  lemma RecordAtByKey(tab: CareTab, r: CareRecord, date: Day, slot: string)
    ensures RecordAt(tab, r, date, slot) <==> HasGrid(tab) && TabOf(r) == tab && DateOf(r) == date && SlotOf(r) == slot
  {
  }

  // ---------------------------------------------------------------- what a cell shows

  /** The suggested turn positions, in rotation order: left, flat, right. */
  const Positions: seq<string> := ["左", "平", "右"]

  /** `positions[slotIdx % 3]`: the position suggested for the row `slotIdx`. */
  function SuggestedPosition(slotIdx: nat): (p: string)
    ensures p in Positions
  {
    Positions[slotIdx % 3]
  }

  /** The suggestion rotates left, flat, right and back to left, starting with left at 07:00;
      twelve rows being a whole number of rotations, the next day starts where the rotation left off. */
  lemma SuggestedPositionRotates(slotIdx: nat)
    ensures SuggestedPosition(0) == "左" && SuggestedPosition(1) == "平" && SuggestedPosition(2) == "右"
    ensures SuggestedPosition(slotIdx + 3) == SuggestedPosition(slotIdx)
    ensures SuggestedPosition(slotIdx + 12) == SuggestedPosition(slotIdx)
    ensures SuggestedPosition(slotIdx + 1) == Positions[(IndexOfPosition(SuggestedPosition(slotIdx)) + 1) % 3]
  {
    assert (slotIdx + 12) % 3 == slotIdx % 3;
  }

  function IndexOfPosition(p: string): nat
  {
    if p == "左" then 0 else if p == "平" then 1 else 2
  }

  /** The diaper cell's text: 小 for urine, / between urine and stool, 大 for stool, 無 for nothing, in that order. */
  function DiaperLabel(hasUrine: bool, hasStool: bool, hasNone: bool): (caption: string)
    ensures ('小' in caption) <==> hasUrine
    ensures ('/' in caption) <==> hasUrine && hasStool
    ensures ('大' in caption) <==> hasStool
    ensures ('無' in caption) <==> hasNone
    ensures hasUrine ==> caption[0] == '小'
    ensures hasNone ==> caption[|caption| - 1] == '無'
    ensures hasStool ==> caption[|caption| - (if hasNone then 2 else 1)] == '大'
    ensures |caption| == (if hasUrine then 1 else 0) + (if hasUrine && hasStool then 1 else 0)
                     + (if hasStool then 1 else 0) + (if hasNone then 1 else 0)
  {
    (if hasUrine then "小" else "") + (if hasUrine && hasStool then "/" else "")
    + (if hasStool then "大" else "") + (if hasNone then "無" else "")
  }

  /** Cell background colours; `NoBg` is the empty class. */
  datatype Bg = NoBg | Green | Blue | Purple | Red | Yellow

  /** `statusColors[status] || ''`: N green, P red, S yellow, anything else no colour. */
  function StatusColour(status: string): (bg: Bg)
    ensures bg == Green <==> status == "N"
    ensures bg == Red <==> status == "P"
    ensures bg == Yellow <==> status == "S"
    ensures bg == NoBg <==> !(status == "N" || status == "P" || status == "S")
    ensures bg != Blue && bg != Purple
  {
    if status == "N" then Green else if status == "P" then Red else if status == "S" then Yellow else NoBg
  }

  /** `statusText[status]`: a coloured dot and the letter; an unknown status renders nothing. */
  function StatusText(status: string): (text: string)
    ensures text != [] <==> status == "N" || status == "P" || status == "S"
    ensures text != [] ==> text[|text| - 1..] == status
  {
    if status == "N" then "\U{1F7E2}N"
    else if status == "P" then "\U{1F534}P"
    else if status == "S" then "\U{1F7E0}S"
    else ""
  }

  /** The check-mark icon of a completed patrol. */
  const CheckMark: string := "\U{2713}"

  /** The main line of a filled cell. */
  function RecordLabel(r: CareRecord): string
  {
    match r
    case PatrolRound(_, _, _, _) => CheckMark
    case DiaperChange(_, _, u, s, n, _) => DiaperLabel(u, s, n)
    case PositionChange(_, _, p, _) => p
    case RestraintObservation(_, _, _, status, _) => StatusText(status)
  }

  /** The background of a filled cell. */
  function RecordBg(r: CareRecord): Bg
  {
    match r
    case PatrolRound(_, _, _, _) => Green
    case DiaperChange(_, _, _, _, _, _) => Blue
    case PositionChange(_, _, _, _) => Purple
    case RestraintObservation(_, _, _, status, _) => StatusColour(status)
  }

  /** The grey text of an empty cell: to patrol, to record, the suggested position in brackets, to observe. */
  function PlaceholderText(tab: CareTab, slotIdx: nat): string
  {
    match tab
    case Patrol => "待巡"
    case Diaper => "待記錄"
    case Position => "[" + SuggestedPosition(slotIdx) + "]"
    case Restraint => "待觀察"
    case _ => ""
  }

  /** A cell of the grid: a found record with its label and colour, a placeholder, or nothing at all
      (the fall-through of the tab test, for tabs without a grid). The recorder shown under the label
      is `record.recorder`. */
  datatype Cell = Recorded(record: CareRecord, caption: string, bg: Bg) | Placeholder(text: string) | Blank

  /** `records[i]` is filed under this date and slot and no earlier record is. */
  predicate FirstAt(tab: CareTab, records: seq<CareRecord>, i: int, date: Day, slot: string)
  {
    0 <= i < |records| && RecordAt(tab, records[i], date, slot)
    && forall j :: 0 <= j < i ==> !RecordAt(tab, records[j], date, slot)
  }

  /** One cell of `renderTable`: the first record of the tab's list filed under this date and slot. */
  function CellFor(tab: CareTab, records: seq<CareRecord>, date: Day, slot: string, slotIdx: nat): (c: Cell)
    ensures !HasGrid(tab) <==> c.Blank?
    ensures HasGrid(tab) ==> (c.Recorded? <==> exists k :: 0 <= k < |records| && RecordAt(tab, records[k], date, slot))
    ensures c.Recorded? ==> exists i :: FirstAt(tab, records, i, date, slot) && records[i] == c.record
    ensures c.Recorded? ==> c.caption == RecordLabel(c.record) && c.bg == RecordBg(c.record)
    ensures c.Placeholder? ==> c.text == PlaceholderText(tab, slotIdx)
  {
    if !HasGrid(tab) then Blank
    else match FindIndex(records, IsAt(tab, date, slot))
      case Some(i) => Recorded(records[i], RecordLabel(records[i]), RecordBg(records[i]))
      case None => Placeholder(PlaceholderText(tab, slotIdx))
  }

  /** A position cell shows the recorded position when there is a record, and the suggestion for its row only
      when there is none. */
  lemma PositionCellShowsRecordOrSuggestion(records: seq<CareRecord>, date: Day, slot: string, slotIdx: nat)
    ensures var c := CellFor(Position, records, date, slot, slotIdx);
      && (c.Recorded? ==> c.caption == c.record.position && c.bg == Purple)
      && (c.Placeholder? ==> c.text == "[" + SuggestedPosition(slotIdx) + "]")
  {
  }

  /** `renderTable`: no grid for intake/output and toilet training; otherwise one row per slot of the tab's
      table and one column per day of the week starting at `weekStart`. */
  function Grid(tab: CareTab, recs: WeekRecords, weekStart: Day): (g: Option<seq<seq<Cell>>>)
    ensures g.None? <==> !HasGrid(tab)
    ensures g.Some? ==> (|g.value| == |SlotsFor(tab)|
      && forall s :: 0 <= s < |g.value| ==> |g.value[s]| == 7)
  {
    if !HasGrid(tab) then None
    else
      var slots := SlotsFor(tab);
      var records := RecordsFor(tab, recs);
      Some(seq(|slots|, s requires 0 <= s < |slots| =>
        seq(7, d requires 0 <= d < 7 => CellFor(tab, records, weekStart + d, slots[s], s))))
  }

  /** Every record of the tab that is the first one filed under its own day of the week and one of the tab's
      slots appears in exactly the cell of that slot and day. */
  lemma GridShowsFirstRecordPerCell(tab: CareTab, recs: WeekRecords, weekStart: Day, k: nat, s: nat)
    requires HasGrid(tab)
    requires k < |RecordsFor(tab, recs)| && s < |SlotsFor(tab)|
    requires var r := RecordsFor(tab, recs)[k];
      weekStart <= DateOf(r) < weekStart + 7 && TabOf(r) == tab && SlotOf(r) == SlotsFor(tab)[s]
    requires var r := RecordsFor(tab, recs)[k];
      forall j :: 0 <= j < k ==> !RecordAt(tab, RecordsFor(tab, recs)[j], DateOf(r), SlotOf(r))
    ensures var r := RecordsFor(tab, recs)[k];
      Grid(tab, recs, weekStart).value[s][DateOf(r) - weekStart] == Recorded(r, RecordLabel(r), RecordBg(r))
  {
    var records := RecordsFor(tab, recs);
    var r := records[k];
    RecordAtByKey(tab, r, DateOf(r), SlotOf(r));
    var d := DateOf(r) - weekStart;
    assert Grid(tab, recs, weekStart).value[s][d] == CellFor(tab, records, DateOf(r), SlotsFor(tab)[s], s);
    FindReturnsFirst(records, IsAt(tab, DateOf(r), SlotOf(r)), k);
  }

  /** Every filled cell of the grid shows a record of the tab's own list whose date is the column's day and whose
      slot is the row's label; the record lists themselves are only read. */
  lemma GridCellsShowOwnRecords(tab: CareTab, recs: WeekRecords, weekStart: Day, s: nat, d: nat)
    requires HasGrid(tab) && s < |SlotsFor(tab)| && d < 7
    ensures var c := Grid(tab, recs, weekStart).value[s][d];
      c.Recorded? ==> (c.record in RecordsFor(tab, recs) && TabOf(c.record) == tab
        && DateOf(c.record) == weekStart + d && SlotOf(c.record) == SlotsFor(tab)[s])
    ensures var c := Grid(tab, recs, weekStart).value[s][d];
      !c.Recorded? ==> (c == Placeholder(PlaceholderText(tab, s))
        && forall r :: r in RecordsFor(tab, recs) ==> !RecordAt(tab, r, weekStart + d, SlotsFor(tab)[s]))
  {
    var c := Grid(tab, recs, weekStart).value[s][d];
    assert c == CellFor(tab, RecordsFor(tab, recs), weekStart + d, SlotsFor(tab)[s], s);
    if c.Recorded? {
      RecordAtByKey(tab, c.record, weekStart + d, SlotsFor(tab)[s]);
    }
  }
}
