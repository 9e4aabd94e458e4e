# CareApp care-records and bed-scan logic, in Dafny

CareApp is a care-home app. Staff pick a resident, either from the roster or by typing or scanning a bed code, and then read and record that resident's care over one week. The week is shown as a grid with one row per time slot and one column per day. The care kinds are patrol rounds, diaper changes, position changes and restraint observations.

This project models the screen logic behind that. There is no backend logic in it. The database answers, the clock and `JSON.parse` are given to the model as data.

- **Text** (`text.dfy`): JavaScript's `trim` over the ECMAScript whitespace set, `toLowerCase` limited to ASCII letters, and `includes`.
- **Search** (`search.dfy`): `Array.prototype.find` and `filter`. `FindIndex` is the index form of `find`; it gives the position of the record that `find` picks for a grid cell.
- **Calendar** (`calendar.dfy`):
  - days are integer day numbers, with day 0 = 1970-01-01, a Thursday;
  - `getDay` numbering;
  - the Monday-based week start;
  - (year, month, day) triples for ages.
- **Residents** (`residents.dfy`): the resident and bed rows, plus these rules:
  - the roster filter;
  - `calculateAge`;
  - the match rule of the home screen's "find one resident" search.
- **CareGrid** (`care_grid.dfy`):
  - the two slot tables, and which tab uses which;
  - the care records;
  - the per-cell first-match rule of `renderTable`;
  - the diaper label, the suggested turn position, and the restraint status text and colour.
- **CareScreen** (`care_screen.dfy`): the state of the care-records screen as a class, with these methods:
  - the roster, the `loading` flag, the selected resident, the manual bed input, the week start, the active tab and the loaded records;
  - `handleSearch`;
  - the loop that builds the week's seven dates;
  - the previous, this and next-week buttons.
- **Json** (`json.dfy`): the JavaScript values a QR payload decodes to, truthiness, and property reads. A read on `null` or `undefined` throws.
- **BedResolution** (`bed_resolution.dfy`): each attempt ends in exactly one outcome. The outcomes are:
  - invalid code;
  - bed not found;
  - bed vacant;
  - no match;
  - navigate to a resident;
  - failed.

  The module holds:
  - the lenient payload rule of the camera scan screen;
  - the strict payload rule of the manual-entry scan screen;
  - the bed-then-resident lookup;
  - the bed-first manual search.
- **ScanScreen** (`scan_screen.dfy`): the camera scan screen as a class. It holds the `loading` and `cameraActive` flags, `handleQRCodeScan`, the `onBarcodeScanned` guard and the focus effect.
- **MobileScanScreen** (`mobile_scan_screen.dfy`): the manual-entry scan screen as a class. It holds `loading` and `manualInput`, `handleManualSearch`, the disabled search button and the strict `handleQRCodeScan`.

The web preview (`src/pages/mobile-app/MobileAppPreview.tsx`) repeats the care-records logic of `frontend/src/App.tsx` line for line. It is modelled once. Each row below cites `App.tsx`, and its "states" column gives the preview's matching lines.

## Model

| member | source | states |
|---|---|---|
| Text.Trim | frontend/src/App.tsx:325 | `s.trim()` is a middle slice of `s` with only whitespace cut off each end, and neither end of the result is whitespace (also `mobile/src/screens/ScanScreen.tsx:24`, `src/screens/ScanScreen.tsx:35`) |
| Text.BlankIffAllWhitespace | frontend/src/App.tsx:325 | `!s.trim()` holds exactly when every character of `s` is whitespace |
| Text.TrimIdempotent | mobile/src/screens/ScanScreen.tsx:35 | trimming an already trimmed string changes nothing |
| Text.Lower | frontend/src/App.tsx:311 | `toLowerCase()` keeps the length, maps every ASCII capital to its lower-case letter, keeps every other character, and leaves no ASCII capital (also App.tsx:327 and `mobile/src/screens/ScanScreen.tsx:35`, `:51`) |
| Text.Contains | frontend/src/App.tsx:310-311 | `s.includes(q)` is true exactly when `q` occurs in `s` at some position |
| Text.ContainsEmpty | frontend/src/App.tsx:309-310 | every string includes the empty string |
| Search.FindIndex | frontend/src/App.tsx:559 | the index form of that `find`: the first index whose element passes the test, and none only when no element passes |
| Search.Find | frontend/src/App.tsx:326-329 | `find` returns something exactly when some element passes, and then it returns the first element that passes |
| Search.FindReturnsFirst | frontend/src/App.tsx:559 | if the element at `k` passes and no earlier one does, `find` returns that element, found at index `k` |
| Search.Filter | frontend/src/App.tsx:308-312 | `filter` keeps exactly the elements that pass and is never longer than its input |
| Search.KeptIndices | frontend/src/App.tsx:308-312 | the positions `filter` keeps are in range, pass the test, strictly increase, and include every passing position |
| Search.FilterKeepsOrder | frontend/src/App.tsx:308-312 | the `k`-th element of the filtered list is the element at the `k`-th kept position, so roster order is kept |
| Search.FilterAll | frontend/src/App.tsx:308-312 | when every element passes, `filter` returns the list unchanged |
| Calendar.Weekday | frontend/src/App.tsx:250 | `getDay()` is below 7 and counts the days since the latest Sunday (1970-01-04 was a Sunday) (same at MobileAppPreview.tsx:110) |
| Calendar.WeekdayAdvance | frontend/src/App.tsx:259 | moving `i` days with `setDate` moves the weekday on by `i` modulo 7 |
| Calendar.WeekStart | frontend/src/App.tsx:248-253 | the week start is a Monday and lies within the six days up to and including today (same at MobileAppPreview.tsx:108-113) |
| Calendar.WeekStartUnique | frontend/src/App.tsx:248-253 | no other Monday lies within those six days, so the initialiser picks the Monday of the current week: a Sunday goes back six days, any other weekday `d` goes back `d-1` |
| Calendar.WeekShiftKeepsMonday | frontend/src/App.tsx:673-676 | shifting a Monday by minus or plus seven days gives a Monday (the buttons at 673-676 and 695-698, and MobileAppPreview.tsx:552-555 and 574-577) |
| Calendar.WeekColumnsMondayToSunday | frontend/src/App.tsx:255-263 | the column `i` days after a Monday falls on weekday `(i+1) mod 7`, Monday through Sunday |
| Residents.RosterEmptyTestRedundant | frontend/src/App.tsx:308-312 | the roster test keeps a resident exactly when the name includes the query or the lower-cased bed code includes the lower-cased query; the `searchQuery === ''` test adds nothing |
| Residents.FilterPatients | frontend/src/App.tsx:308-312 | the home list holds exactly the roster residents that pass the roster test and is no longer than the roster (same at MobileAppPreview.tsx:170-174) |
| Residents.FilterPatientsKeepsOrder | frontend/src/App.tsx:308-312 | the home list is the passing residents in roster order, and a roster position is listed exactly when its resident passes |
| Residents.FilterEmptyQueryKeepsAll | frontend/src/App.tsx:309 | with an empty query the home list is the whole roster in order |
| Residents.CalculateAge | frontend/src/App.tsx:314-322 | there is no age exactly when there is no birth date. Otherwise the age is the year difference, or one less exactly when this year's birthday is still ahead, so it lies in [diff-1, diff] (same at MobileAppPreview.tsx:176-184) |
| Residents.AgeCountsAnniversaries | frontend/src/App.tsx:314-322 | the age is the number of birthdays reached: birthday number `age` is on or before today, and number `age+1` is after it |
| Residents.AgeNonNegative | frontend/src/App.tsx:314-322 | anyone born on or before today has an age of at least 0 |
| Residents.SearchResult | frontend/src/App.tsx:326-329 | the search returns the first listed resident whose lower-cased bed code equals the lower-cased input or whose name includes the input; it returns none exactly when no resident matches |
| Residents.SearchFindsExactBedCode | frontend/src/App.tsx:326-329 | typing a listed resident's bed code exactly always finds a resident |
| CareGrid.TimeSlotMinutes | frontend/src/App.tsx:88 | the `i`-th clock slot is `07:00 + 2i hours` up to 23:00, and then 01:00, 03:00 and 05:00 |
| CareGrid.TimeSlotsEveryTwoHours | frontend/src/App.tsx:88 | there are 12 clock slots, the `i`-th at `(420 + 120 i) mod 1440` minutes (same at MobileAppPreview.tsx:86) |
| CareGrid.TimeSlotsWrapAndDistinct | frontend/src/App.tsx:88 | each slot is two hours after the one before it, the first following the last across midnight, and no two labels are equal |
| CareGrid.DiaperSlotsDistinct | frontend/src/App.tsx:89 | there are six diaper slots and no two are equal (same at MobileAppPreview.tsx:87) |
| CareGrid.SlotsFor | frontend/src/App.tsx:522 | the diaper tab uses the 6 range slots and every other tab the 12 clock slots (same at MobileAppPreview.tsx:398) |
| CareGrid.SlotOf | frontend/src/App.tsx:559-602 | a diaper record is filed under `time_slot` and every other record under `scheduled_time` |
| CareGrid.RecordAtByKey | frontend/src/App.tsx:559-602 | a record fills a cell exactly when the tab has a grid, the record is of that tab's kind, and its date and slot fields equal the cell's date and row |
| CareGrid.SuggestedPosition | frontend/src/App.tsx:588-589 | the suggestion `positions[slotIdx % 3]` is always one of 左, 平 or 右 |
| CareGrid.SuggestedPositionRotates | frontend/src/App.tsx:588-589 | the suggestion starts at 左, 平, 右, repeats every 3 rows (and so every 12), and each row moves one step on in the cycle (same at MobileAppPreview.tsx:463-475) |
| CareGrid.DiaperLabel | frontend/src/App.tsx:578 | 小 appears iff urine; / appears iff urine and stool; 大 appears iff stool; 無 appears iff none. They appear in that order, and the length counts exactly those parts (same at MobileAppPreview.tsx:454) |
| CareGrid.StatusColour | frontend/src/App.tsx:604-606 | N gives green, P red and S yellow, each exactly; every other status gives no colour (same at MobileAppPreview.tsx:480-482) |
| CareGrid.StatusText | frontend/src/App.tsx:605 | the status text is non-empty exactly for N, P and S, and then it ends with that letter |
| CareGrid.CellFor | frontend/src/App.tsx:558-616 | tabs without a grid give a blank cell. Otherwise the cell shows a record exactly when some record of the tab is filed under that date and slot, and then it shows the first one, with its label and colour. Without one it shows the tab's placeholder (same at MobileAppPreview.tsx:434-492) |
| CareGrid.PositionCellShowsRecordOrSuggestion | frontend/src/App.tsx:586-600 | a position cell shows the recorded position in purple when there is a record, and `[suggestion]` only when there is none |
| CareGrid.Grid | frontend/src/App.tsx:522-532 | intake/output and toilet training have no grid; every other tab has one row per slot of its table and seven columns (same at MobileAppPreview.tsx:398-408) |
| CareGrid.GridShowsFirstRecordPerCell | frontend/src/App.tsx:558-616 | a record of the tab dated in the shown week, filed under a slot of the tab, and first among records with that date and slot, appears in exactly the cell at that row and day |
| CareGrid.GridCellsShowOwnRecords | frontend/src/App.tsx:558-616 | every filled cell shows a record of the tab's own list, of the tab's kind, with the column's date and the row's slot; every other cell is the tab's placeholder for that row, and then no record of the list is filed at that date and slot; the lists are only read |
| CareScreen.SearchOutcomeOf | frontend/src/App.tsx:324-336 | blank input is ignored. Otherwise the search selects the first matching resident, matched on the untrimmed input, or reports no match exactly when none matches (same at MobileAppPreview.tsx:186-198) |
| CareScreen.SearchUsesUntrimmedInput | frontend/src/App.tsx:325-328 | the input is not trimmed for matching: `"A01 "` finds no resident with bed code A01, while `"a01"` does |
| CareScreen.CareScreenState.constructor | frontend/src/App.tsx:233-253 | the screen mounts loading, with nothing selected, empty input, the patrol tab, no records, and the Monday of today's week as week start (same at MobileAppPreview.tsx:91-113) |
| CareScreen.CareScreenState.PatientsLoaded | frontend/src/App.tsx:267-283 | the roster is replaced only by rows from a query without error, and loading ends on every path |
| CareScreen.CareScreenState.RecordsLoaded | frontend/src/App.tsx:299-302 | each record list is replaced only when its query returned data |
| CareScreen.CareScreenState.HandleSearch | frontend/src/App.tsx:324-336 | the outcome is `SearchOutcomeOf` of the roster and the input. A match selects that resident and clears the input; a miss or blank input leaves the selection and the input unchanged (same at MobileAppPreview.tsx:186-198) |
| CareScreen.CareScreenState.WeekDates | frontend/src/App.tsx:255-263 | the loop yields seven dates, the `i`-th being the week start plus `i` days (same at MobileAppPreview.tsx:115-123) |
| CareScreen.CareScreenState.PreviousWeek | frontend/src/App.tsx:673-676 | the week start moves back exactly 7 days and stays a Monday (same at MobileAppPreview.tsx:552-555) |
| CareScreen.CareScreenState.ThisWeek | frontend/src/App.tsx:684-688 | the week start becomes the Monday of the week containing today (same at MobileAppPreview.tsx:563-567) |
| CareScreen.CareScreenState.NextWeek | frontend/src/App.tsx:695-698 | the week start moves forward exactly 7 days and stays a Monday (same at MobileAppPreview.tsx:574-577) |
| CareScreen.WeekDatesMondayToSunday | frontend/src/App.tsx:255-263 | the seven dates of a week starting on a Monday run Monday through Sunday |
| CareScreen.NavigationRoundTrip | frontend/src/App.tsx:673-698 | next-then-previous and previous-then-next both return to the same week, which is still a Monday |
| Json.Truthy | src/screens/ScanScreen.tsx:35 | a value is falsy exactly when it is `undefined`, `null`, `false`, `0` or the empty string (also lines 41 and `mobile/src/screens/ScanScreen.tsx:75`) |
| Json.Prop | src/screens/ScanScreen.tsx:35 | reading a property throws exactly on `null` and `undefined`; on an object it gives the field or `undefined`; any other value gives `undefined` |
| BedResolution.ResolveBed | src/screens/ScanScreen.tsx:44-60 | the outcome is: failed exactly when the bed query throws, or the bed is found and the resident query throws; not found exactly when the id has no bed; vacant exactly when both queries succeed and the found bed has no resident, and then with that bed's number; navigate exactly when bed and resident are both found, and then with that bed's resident (same at mobile/src/screens/ScanScreen.tsx:80-92) |
| BedResolution.NavigatesToOccupant | src/screens/ScanScreen.tsx:52-60 | in a consistent database a scan opens only the resident whose `bed_id` is the scanned bed |
| BedResolution.BedObject | src/screens/ScanScreen.tsx:32 | the substitute object for non-JSON text has `qr_code_id` equal to that text |
| BedResolution.LenientPayload | src/screens/ScanScreen.tsx:28-41 | non-JSON text is taken as the id itself and is rejected only when it is empty. JSON `null` throws. Otherwise the payload is rejected exactly when `qr_code_id` is falsy and the raw text is blank. The id looked up is `qr_code_id` when it is truthy, else the trimmed text, and is always truthy |
| BedResolution.StrictPayload | mobile/src/screens/ScanScreen.tsx:73-78 | the payload is malformed exactly when it is non-JSON, `null` or `undefined`. It is accepted exactly when it is an object whose `type` is the string `bed` and whose `qr_code_id` is truthy, and then that id is looked up |
| BedResolution.Resolve | mobile/src/screens/ScanScreen.tsx:75-95 | a rejected payload, and only such a payload, gives invalid code; a thrown error gives failed; an accepted id gives the bed lookup's outcome |
| BedResolution.LenientIgnoresType | src/screens/ScanScreen.tsx:35-41 | changing or adding `type` in a JSON object never changes the lenient decision |
| BedResolution.StrictAcceptsFewer | mobile/src/screens/ScanScreen.tsx:73-78 | every payload the strict rule accepts, the lenient rule accepts with the same id, and both screens then reach the same outcome |
| BedResolution.BareIdSeparatesHandlers | src/screens/ScanScreen.tsx:28-33 | non-empty non-JSON text is looked up as an id by the camera screen but fails on the manual-entry screen (`mobile/src/screens/ScanScreen.tsx:73`) |
| BedResolution.WrongTypeSeparatesHandlers | mobile/src/screens/ScanScreen.tsx:75 | an object with a truthy id but `type` other than `bed` is rejected by the strict rule and accepted by the lenient one |
| BedResolution.LenientRejectsOnlyEmptyBareText | src/screens/ScanScreen.tsx:28-39 | non-JSON text is rejected exactly when it is empty; whitespace-only or padded text is looked up untrimmed |
| BedResolution.MatchingBed | mobile/src/screens/ScanScreen.tsx:35 | the bed found is the first whose lower-cased number equals the lower-cased query; none is found exactly when no bed matches |
| BedResolution.Occupant | mobile/src/screens/ScanScreen.tsx:39 | the resident found is the first fetched resident whose `bed_id` is the bed's id; none is found exactly when no resident has that `bed_id` |
| BedResolution.LookupQuery | mobile/src/screens/ScanScreen.tsx:34-61 | with `k` the first bed whose number matches: vacant, with that bed's number, exactly when no resident has that bed's id, and otherwise navigation to the first resident that has it. With no bed matching, the outcome is never vacant, and navigation is to the first resident matching by bed code or name. No match happens exactly when neither a bed nor a resident matches |
| BedResolution.ManualLookup | mobile/src/screens/ScanScreen.tsx:23-61 | blank input gives the blank alert exactly. A fetch error gives failed exactly. Otherwise, with `k` the first bed whose number matches the trimmed input ignoring case: vacant, with that bed's number, exactly when no resident has that bed's id, and otherwise navigation to the first resident that has it. With no bed matching, the outcome is never vacant, and navigation is to the first resident matching the trimmed input by bed code or name. No match happens exactly when neither a bed nor a resident matches the trimmed input |
| BedResolution.VacantBedHasNoFallback | mobile/src/screens/ScanScreen.tsx:37-46 | if the first matching bed has no resident, the outcome is vacant with its number, even when a resident's name matches |
| BedResolution.ManualLookupTrims | mobile/src/screens/ScanScreen.tsx:35-51 | typing the input with or without surrounding whitespace gives the same outcome |
| ScanScreen.CameraScanScreen.constructor | src/screens/ScanScreen.tsx:18-20 | the screen mounts not loading, with the camera on |
| ScanScreen.CameraScanScreen.HandleQRCodeScan | src/screens/ScanScreen.tsx:22-68 | the outcome is the lenient rule followed by the lookup. `loading` is false afterwards on every path, and the camera is back on exactly when the outcome is not navigation |
| ScanScreen.CameraScanScreen.OnBarcodeScanned | src/screens/ScanScreen.tsx:175-179 | with the camera off the barcode is ignored and nothing changes; with it on, the barcode is handled as by `HandleQRCodeScan` |
| ScanScreen.CameraScanScreen.FocusGained | src/screens/ScanScreen.tsx:78-83 | gaining focus turns the camera on |
| ScanScreen.CameraScanScreen.FocusLost | src/screens/ScanScreen.tsx:78-83 | losing focus turns the camera off |
| ScanScreen.ScanTwice | src/screens/ScanScreen.tsx:175-179 | after a scan that navigates, the next barcode is ignored; after any other outcome it is handled |
| MobileScanScreen.ManualScanScreen.constructor | mobile/src/screens/ScanScreen.tsx:18-19 | the screen mounts not loading, with empty input |
| MobileScanScreen.ManualScanScreen.SetManualInput | mobile/src/screens/ScanScreen.tsx:166 | typing replaces the input |
| MobileScanScreen.ManualScanScreen.HandleManualSearch | mobile/src/screens/ScanScreen.tsx:23-68 | the outcome is `ManualLookup` of the input. The input is cleared exactly on navigation. `loading` is untouched on blank input and false after every other path |
| MobileScanScreen.ManualScanScreen.SearchButtonPressed | mobile/src/screens/ScanScreen.tsx:171-175 | while loading, the button does nothing; otherwise it runs the manual search |
| MobileScanScreen.ManualScanScreen.HandleQRCodeScan | mobile/src/screens/ScanScreen.tsx:70-99 | the outcome is the strict rule followed by the lookup; `loading` is false afterwards and the input is untouched |

## Left out

- Supabase queries and auth are not modelled. Their answers are inputs: row sequences, maps from QR code id to bed and from bed id to resident, and flags for a query that throws or returns an error. `getBedByQrCodeId`, `getPatientByBedId`, `getBeds` and `getPatients` are not part of this model.
- The `Promise.all` fan-out of `loadRecords` and its effect trigger on the selected resident are not modelled; `RecordsLoaded` takes the four answers at once.
- Rendering is not modelled: JSX, styles, icons, the phone frame, the bottom tab bar and the recorder line under each cell. The unimported `Pressable` of the manual-entry scan screen is also omitted.
- The camera and its permissions, `Alert.alert` and `navigation.navigate` appear only as `Outcome` values. The alert message text is not modelled, including the QR code id shown in the camera screen's "bed not found" alert.
- `JSON.parse` is an input (`Parsed(value)` or `NotJson`). Nothing ties it to the raw text.
- JSON numbers are integers in the model. Fractional numbers, `NaN` and `-0` are not modelled.
- Property reads model only data keys such as `type` and `qr_code_id`. Inherited properties such as `length` are not modelled.
- JavaScript `Date` is not modelled: time zones, the time of day that `setDate` keeps, and `formatDate`'s use of UTC `toISOString`, which can shift a cell's date. Record and cell dates are plain day numbers.
- Calendar.WeekStart: works on day numbers; `setDate`'s roll-over across months is taken to be plain day arithmetic.
- Text.Lower: lower-cases only ASCII letters; full Unicode `toLowerCase` is not modelled.
- The meaning of the diaper range labels is not modelled, because nothing in the screens reads them as hours; only their number and distinctness are stated.
- The camera screen's barcode guard reads `cameraActive` from the last render, and the handler is asynchronous. Scans that arrive before the re-render, and so race the first scan, are not modelled: each call runs to completion.
- `handleManualSearch` can also run from the text field's submit action, which is not disabled while loading. The model's `HandleManualSearch` covers that path, and `SearchButtonPressed` covers the button.
- Resident rows keep only the fields the logic reads: id, bed code, name, birth date and bed id.
- A birth date string that `new Date` cannot parse is not modelled. The age of a resident with no birth date is `None`, and the rendering that hides an age of 0 behind `&&` is not modelled.
- The strict `handleQRCodeScan` of the manual-entry scan screen (`mobile/src/screens/ScanScreen.tsx:70`) has no caller in that file: its scan button only shows an alert that the camera needs a real phone. The model states the handler's behaviour for a payload all the same; the button's alert is not modelled.
- The screens contain no overdue or time-zone status computation, so none is modelled.
