/** The scan screen with manual entry: a typed bed number or resident name, or a strictly checked QR payload,
    is resolved to a resident; `loading` disables the search button while a search runs. */
module MobileScanScreen {
  import opened Text
  import opened Search
  import opened Json
  import opened Residents
  import opened BedResolution

  class ManualScanScreen {
    var loading: bool
    var manualInput: string

    /** The screen as it mounts: not loading, nothing typed. */
    constructor ()
      ensures !loading && manualInput == []
    {
      loading := false;
      manualInput := [];
    }

    /** The text field's `onChangeText`. */
    method SetManualInput(text: string)
      modifies this`manualInput
      ensures manualInput == text
    {
      manualInput := text;
    }

    /** `handleManualSearch`, given what `getBeds` and `getPatients` return (or that one of them throws):
        blank input alerts without a lookup; a match navigates and clears the input; every other outcome
        keeps the input; `loading` is cleared in `finally` once the lookup started. */
    method HandleManualSearch(beds: seq<Bed>, patients: seq<Patient>, fetchFails: bool) returns (outcome: Outcome)
      modifies this
      ensures outcome == ManualLookup(old(manualInput), beds, patients, fetchFails)
      ensures manualInput == if outcome.Navigate? then [] else old(manualInput)
      ensures loading == if outcome.BlankInput? then old(loading) else false
    {
      if IsBlank(manualInput) {
        return BlankInput;
      }
      loading := true;
      if fetchFails {
        outcome := Failed;
      } else {
        var query := Trim(manualInput);
        var bed := MatchingBed(beds, query);
        if bed.Some? {
          var patient := Occupant(patients, bed.value.id);
          if patient.Some? {
            outcome := Navigate(patient.value);
            manualInput := [];
          } else {
            outcome := BedVacant(bed.value.bedNumber);
          }
        } else {
          var patient := SearchResult(patients, query);
          if patient.Some? {
            outcome := Navigate(patient.value);
            manualInput := [];
          } else {
            outcome := NoMatch;
          }
        }
      }
      loading := false;
    }

    /** The search button, which is disabled while `loading`. */
    method SearchButtonPressed(beds: seq<Bed>, patients: seq<Patient>, fetchFails: bool) returns (handled: Option<Outcome>)
      modifies this
      ensures old(loading) ==> handled == None && loading && manualInput == old(manualInput)
      ensures !old(loading) ==> handled == Some(ManualLookup(old(manualInput), beds, patients, fetchFails)) && !loading
    {
      if loading {
        handled := None;
      } else {
        var outcome := HandleManualSearch(beds, patients, fetchFails);
        handled := Some(outcome);
      }
    }

    /** `handleQRCodeScan(data)`: the payload must be JSON of a `bed` with a truthy `qr_code_id`;
        then the bed and its resident are looked up; `finally` clears `loading`. */
    method HandleQRCodeScan(parsed: ParseResult, db: Backend) returns (outcome: Outcome)
      modifies this`loading
      ensures outcome == Resolve(StrictPayload(parsed), db)
      ensures !loading
    {
      loading := true;
      if parsed.NotJson? {
        // `JSON.parse` throws: "QR Code 格式無效"
        outcome := Failed;
      } else {
        var qrData := parsed.value;
        var kind := Prop(qrData, "type");
        if kind.None? {
          outcome := Failed;
        } else if kind.value != Str("bed") || !Truthy(Prop(qrData, "qr_code_id").value) {
          outcome := InvalidCode;
        } else {
          var qrCodeId := Prop(qrData, "qr_code_id").value;
          if db.bedQueryFails {
            outcome := Failed;
          } else if qrCodeId !in db.bedByQr {
            outcome := BedNotFound;
          } else {
            var bed := db.bedByQr[qrCodeId];
            if db.residentQueryFails {
              outcome := Failed;
            } else if bed.id !in db.residentByBed {
              outcome := BedVacant(bed.bedNumber);
            } else {
              outcome := Navigate(db.residentByBed[bed.id]);
            }
          }
        }
      }
      loading := false;
    }
  }
}
