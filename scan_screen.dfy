/** The camera scan screen: a scanned QR payload is resolved leniently to a resident, with the camera paused
    while a scan is handled and the `loading` overlay shown. */
module ScanScreen {
  import opened Text
  import opened Search
  import opened Json
  import opened BedResolution

  class CameraScanScreen {
    var loading: bool
    var cameraActive: bool

    /** The screen as it mounts: not loading, camera on. */
    constructor ()
      ensures !loading && cameraActive
    {
      loading := false;
      cameraActive := true;
    }

    /** `handleQRCodeScan(data)`: pause the camera, decide the payload, look up the bed and its resident.
        Every exit turns the camera back on except navigation, and `finally` clears `loading`. */
    method HandleQRCodeScan(data: string, parsed: ParseResult, db: Backend) returns (outcome: Outcome)
      modifies this
      ensures outcome == Resolve(LenientPayload(data, parsed), db)
      ensures !loading
      ensures cameraActive <==> !outcome.Navigate?
    {
      loading := true;
      cameraActive := false;
      var qrData := if parsed.NotJson? then BedObject(data) else parsed.value;
      var id := Prop(qrData, "qr_code_id");
      if id.None? {
        // reading `qr_code_id` of `null` throws; the catch alerts and resumes scanning
        outcome := Failed;
        cameraActive := true;
      } else if !Truthy(id.value) && IsBlank(data) {
        outcome := InvalidCode;
        cameraActive := true;
      } else {
        var qrCodeId := if Truthy(id.value) then id.value else Str(Trim(data));
        if db.bedQueryFails {
          outcome := Failed;
          cameraActive := true;
        } else if qrCodeId !in db.bedByQr {
          outcome := BedNotFound;
          cameraActive := true;
        } else {
          var bed := db.bedByQr[qrCodeId];
          if db.residentQueryFails {
            outcome := Failed;
            cameraActive := true;
          } else if bed.id !in db.residentByBed {
            outcome := BedVacant(bed.bedNumber);
            cameraActive := true;
          } else {
            outcome := Navigate(db.residentByBed[bed.id]);
          }
        }
      }
      loading := false;
    }

    /** The camera's `onBarcodeScanned`: a barcode is handled only while the camera is active. */
    method OnBarcodeScanned(data: string, parsed: ParseResult, db: Backend) returns (handled: Option<Outcome>)
      modifies this
      ensures !old(cameraActive) ==> handled == None && loading == old(loading) && !cameraActive
      ensures old(cameraActive) ==> handled == Some(Resolve(LenientPayload(data, parsed), db))
      ensures old(cameraActive) ==> !loading && (cameraActive <==> !handled.value.Navigate?)
    {
      if cameraActive {
        var outcome := HandleQRCodeScan(data, parsed, db);
        handled := Some(outcome);
      } else {
        handled := None;
      }
    }

    /** The focus effect: the camera resumes when the screen gains focus... */
    method FocusGained()
      modifies this`cameraActive
      ensures cameraActive
    {
      cameraActive := true;
    }

    /** ...and stops when it loses focus. */
    method FocusLost()
      modifies this`cameraActive
      ensures !cameraActive
    {
      cameraActive := false;
    }
  }

  /** After a scan that opens a resident, further barcodes are ignored until the screen regains focus;
      after any other outcome the next barcode is handled. */
  method ScanTwice(screen: CameraScanScreen, first: string, firstParsed: ParseResult,
                   second: string, secondParsed: ParseResult, db: Backend)
      returns (a: Option<Outcome>, b: Option<Outcome>)
    requires screen.cameraActive
    modifies screen
    ensures a == Some(Resolve(LenientPayload(first, firstParsed), db))
    ensures a.value.Navigate? ==> b == None
    ensures !a.value.Navigate? ==> b == Some(Resolve(LenientPayload(second, secondParsed), db))
    ensures !screen.loading
  {
    a := screen.OnBarcodeScanned(first, firstParsed, db);
    b := screen.OnBarcodeScanned(second, secondParsed, db);
  }
}
