/** How a scanned QR payload or a typed bed number/name is resolved to a resident, as the two scan screens do it.
    Every attempt ends in exactly one `Outcome`. The database is given as data: the bed each QR code id
    belongs to, the resident on each bed, and whether a query throws. */
module BedResolution {
  import opened Text
  import opened Search
  import opened Json
  import opened Residents

  /** The single result of one scan or manual search: an alert, or navigation to a resident's care records. */
  datatype Outcome =
    | BlankInput                   // "請輸入床號": nothing typed
    | InvalidCode                  // "無效的 QR Code"
    | BedNotFound                  // "找不到床位"
    | BedVacant(bedNumber: string) // "床位空置"
    | NoMatch                      // "找不到": no bed and no resident matches the typed text
    | Navigate(patient: Patient)   // open that resident's care records
    | Failed                       // the catch block: a thrown error

  /** The answers of `getBedByQrCodeId` and `getPatientByBedId`, and whether each of them throws. */
  datatype Backend = Backend(
    bedByQr: map<JsValue, Bed>,
    residentByBed: map<string, Patient>,
    bedQueryFails: bool,
    residentQueryFails: bool)

  /** The resident table agrees with itself: the resident listed for a bed has that bed's id as `bed_id`. */
  ghost predicate Consistent(db: Backend)
  {
    forall bedId :: bedId in db.residentByBed ==> db.residentByBed[bedId].bedId == Some(bedId)
  }

  /** The lookups both QR handlers make once they hold a QR code id: the bed, then the resident on it. */
  function ResolveBed(key: JsValue, db: Backend): (r: Outcome)
    ensures r.Failed? || r.BedNotFound? || r.BedVacant? || r.Navigate?
    ensures r.BedNotFound? <==> !db.bedQueryFails && key !in db.bedByQr
    ensures r.Navigate? <==> !db.bedQueryFails && !db.residentQueryFails && key in db.bedByQr
                             && db.bedByQr[key].id in db.residentByBed
    ensures r.Navigate? ==> r.patient == db.residentByBed[db.bedByQr[key].id]
    ensures r.BedVacant? ==> key in db.bedByQr && r.bedNumber == db.bedByQr[key].bedNumber
    ensures r.BedVacant? <==> (!db.bedQueryFails && !db.residentQueryFails && key in db.bedByQr
                               && db.bedByQr[key].id !in db.residentByBed)
    ensures r.Failed? <==> db.bedQueryFails || (key in db.bedByQr && db.residentQueryFails)
  {
    if db.bedQueryFails then Failed
    else if key !in db.bedByQr then BedNotFound
    else
      var bed := db.bedByQr[key];
      if db.residentQueryFails then Failed
      else if bed.id !in db.residentByBed then BedVacant(bed.bedNumber)
      else Navigate(db.residentByBed[bed.id])
  }

  /** In a consistent database a scan only ever opens the resident who occupies the scanned bed. */
  lemma NavigatesToOccupant(key: JsValue, db: Backend)
    requires Consistent(db)
    ensures ResolveBed(key, db).Navigate? ==>
      key in db.bedByQr && ResolveBed(key, db).patient.bedId == Some(db.bedByQr[key].id)
  {
    if ResolveBed(key, db).Navigate? {
      var bedId := db.bedByQr[key].id;
      assert bedId in db.residentByBed;
    }
  }

  /** What a handler makes of a payload before any lookup: the QR code id to look up, a rejection
      ("無效的 QR Code"), or a thrown TypeError from reading a property of `null`. */
  datatype Payload = Accepted(key: JsValue) | Rejected | Malformed

  /** The object the lenient handler substitutes for a payload that is not JSON. */
  function BedObject(data: string): (v: JsValue)
    ensures Prop(v, "qr_code_id") == Some(Str(data))
  {
    Obj(map["type" := Str("bed"), "qr_code_id" := Str(data)])
  }

  /** The camera scan screen's payload rule: non-JSON text is taken as a bare QR code id; the payload is
      rejected only when its `qr_code_id` is falsy and the raw text is blank; the id looked up is `qr_code_id`
      when truthy, else the trimmed raw text. The `type` field is never read. */
  function LenientPayload(data: string, parsed: ParseResult): (r: Payload)
    ensures parsed.NotJson? ==> r == if data == [] then Rejected else Accepted(Str(data))
    ensures r.Malformed? <==> parsed.Parsed? && (parsed.value.Null? || parsed.value.Undefined?)
    ensures r.Accepted? ==> Truthy(r.key)
    ensures parsed.Parsed? && !r.Malformed? ==>
      var id := Prop(parsed.value, "qr_code_id").value;
      && (r.Rejected? <==> !Truthy(id) && IsBlank(data))
      && (r.Accepted? && Truthy(id) ==> r.key == id)
      && (r.Accepted? && !Truthy(id) ==> r.key == Str(Trim(data)))
  {
    EmptyIsBlank();
    var qrData := if parsed.NotJson? then BedObject(data) else parsed.value;
    match Prop(qrData, "qr_code_id")
    case None => Malformed
    case Some(id) =>
      if !Truthy(id) && IsBlank(data) then Rejected
      else if Truthy(id) then Accepted(id)
      else Accepted(Str(Trim(data)))
  }

  /** The manual-entry scan screen's payload rule: the text must be JSON, `type` must be the string `bed`,
      and `qr_code_id` must be truthy; that id is looked up as it is. */
  function StrictPayload(parsed: ParseResult): (r: Payload)
    ensures r.Malformed? <==> parsed.NotJson? || parsed.value.Null? || parsed.value.Undefined?
    ensures r.Accepted? <==> (parsed.Parsed? && parsed.value.Obj?
      && "type" in parsed.value.fields && parsed.value.fields["type"] == Str("bed")
      && "qr_code_id" in parsed.value.fields && Truthy(parsed.value.fields["qr_code_id"]))
    ensures r.Accepted? ==> r.key == parsed.value.fields["qr_code_id"]
  {
    match parsed
    case NotJson => Malformed
    case Parsed(qrData) =>
      match Prop(qrData, "type")
      case None => Malformed
      case Some(kind) =>
        if kind != Str("bed") then Rejected
        else
          var id := Prop(qrData, "qr_code_id").value;
          if !Truthy(id) then Rejected else Accepted(id)
  }

  /** A payload decision followed by the lookups. */
  function Resolve(payload: Payload, db: Backend): (r: Outcome)
    ensures payload.Rejected? <==> r.InvalidCode?
    ensures payload.Malformed? ==> r.Failed?
    ensures payload.Accepted? ==> r == ResolveBed(payload.key, db)
  {
    match payload
    case Malformed => Failed
    case Rejected => InvalidCode
    case Accepted(key) => ResolveBed(key, db)
  }

  /** The lenient handler never reads `type`: a JSON object resolves the same whatever its `type` says. */
  lemma LenientIgnoresType(data: string, fields: map<string, JsValue>, kind: JsValue)
    ensures LenientPayload(data, Parsed(Obj(fields["type" := kind]))) == LenientPayload(data, Parsed(Obj(fields)))
  {
    PropOtherKey(fields, "type", kind, "qr_code_id");
  }

  /** Every payload the strict handler accepts, the lenient one accepts with the same id,
      so on those payloads both screens reach the same outcome. */
  lemma StrictAcceptsFewer(data: string, parsed: ParseResult, db: Backend)
    requires StrictPayload(parsed).Accepted?
    ensures LenientPayload(data, parsed) == StrictPayload(parsed)
    ensures Resolve(LenientPayload(data, parsed), db) == Resolve(StrictPayload(parsed), db)
  {
  }

  /** The two handlers differ on a bare QR code id: the lenient one looks it up, the strict one fails. */
  lemma BareIdSeparatesHandlers(data: string)
    requires data != []
    ensures LenientPayload(data, NotJson) == Accepted(Str(data))
    ensures StrictPayload(NotJson) == Malformed
  {
  }

  /** ...and on a JSON object with the right id but another type. */
  lemma WrongTypeSeparatesHandlers(data: string, id: string)
    requires id != []
    ensures var v := Obj(map["type" := Str("room"), "qr_code_id" := Str(id)]);
      LenientPayload(data, Parsed(v)) == Accepted(Str(id)) && StrictPayload(Parsed(v)) == Rejected
  {
    var v := Obj(map["type" := Str("room"), "qr_code_id" := Str(id)]);
    assert Prop(v, "type") == Some(Str("room"));
    assert Prop(v, "qr_code_id") == Some(Str(id));
  }

  /** The lenient handler rejects a non-JSON payload only when it is the empty string: whitespace-only
      text is looked up as it is, untrimmed, because it is taken as the object's truthy `qr_code_id`. */
  lemma LenientRejectsOnlyEmptyBareText(data: string)
    ensures LenientPayload(data, NotJson).Rejected? <==> data == []
    ensures data != [] ==> LenientPayload(data, NotJson) == Accepted(Str(data))
  {
  }

  /** The bed-number test of the manual search: equal after ASCII lower-casing. */
  predicate BedMatches(b: Bed, query: string)
  {
    Lower(b.bedNumber) == Lower(query)
  }

  /** `beds[k]` is the first bed whose number matches `query`. */
  predicate FirstBed(beds: seq<Bed>, query: string, k: int)
  {
    0 <= k < |beds| && BedMatches(beds[k], query) && forall j :: 0 <= j < k ==> !BedMatches(beds[j], query)
  }

  /** `patients[i]` is the first resident whose `bed_id` is `bedId`. */
  predicate FirstOnBed(patients: seq<Patient>, bedId: string, i: int)
  {
    0 <= i < |patients| && patients[i].bedId == Some(bedId)
    && forall j :: 0 <= j < i ==> patients[j].bedId != Some(bedId)
  }

  /** `patients[i]` is the first resident matching `query` by bed code or name. */
  predicate FirstSearchMatch(patients: seq<Patient>, query: string, i: int)
  {
    0 <= i < |patients| && SearchMatches(patients[i], query)
    && forall j :: 0 <= j < i ==> !SearchMatches(patients[j], query)
  }

  /** `beds.find(...)` of the manual search: the first bed whose number matches `query`. */
  function MatchingBed(beds: seq<Bed>, query: string): (r: Option<Bed>)
    ensures r.None? <==> forall b :: b in beds ==> !BedMatches(b, query)
    ensures r.Some? ==> exists i :: FirstBed(beds, query, i) && beds[i] == r.value
  {
    Find(beds, b => BedMatches(b, query))
  }

  /** `patients.find(p => p.bed_id === bedId)`: the first resident on that bed. */
  function Occupant(patients: seq<Patient>, bedId: string): (r: Option<Patient>)
    ensures r.None? <==> forall p :: p in patients ==> p.bedId != Some(bedId)
    ensures r.Some? ==> exists i :: FirstOnBed(patients, bedId, i) && patients[i] == r.value
  {
    Find(patients, (p: Patient) => p.bedId == Some(bedId))
  }

  /** The lookup of a non-blank trimmed `query` once beds and residents are fetched: the first matching bed
      decides alone (its resident, or vacant); only when no bed matches is the first resident matching the query
      by bed code or name taken. */
  function LookupQuery(query: string, beds: seq<Bed>, patients: seq<Patient>): (r: Outcome)
    ensures r.BedVacant? || r.NoMatch? || r.Navigate?
    ensures r.Navigate? ==> r.patient in patients
    ensures forall k :: FirstBed(beds, query, k) ==>
      && (r.BedVacant? <==> forall p :: p in patients ==> p.bedId != Some(beds[k].id))
      && (r.BedVacant? ==> r.bedNumber == beds[k].bedNumber)
      && (!r.BedVacant? ==> r.Navigate? && exists i :: FirstOnBed(patients, beds[k].id, i) && patients[i] == r.patient)
    ensures (forall b :: b in beds ==> !BedMatches(b, query)) ==>
      && !r.BedVacant?
      && (r.Navigate? ==> exists i :: FirstSearchMatch(patients, query, i) && patients[i] == r.patient)
    ensures r.NoMatch? <==> ((forall b :: b in beds ==> !BedMatches(b, query))
      && (forall p :: p in patients ==> !SearchMatches(p, query)))
  {
    match MatchingBed(beds, query)
    case Some(bed) =>
      (match Occupant(patients, bed.id)
       case Some(p) => Navigate(p)
       case None => BedVacant(bed.bedNumber))
    case None =>
      match SearchResult(patients, query)
      case Some(p) => Navigate(p)
      case None => NoMatch
  }

  /** `handleManualSearch`'s decision on the typed `input`, the fetched beds and residents, and whether
      fetching threw: blank input is refused before any fetch; otherwise the trimmed input is looked up. */
  function ManualLookup(input: string, beds: seq<Bed>, patients: seq<Patient>, fetchFails: bool): (r: Outcome)
    ensures r.BlankInput? <==> IsBlank(input)
    ensures r.Failed? <==> !IsBlank(input) && fetchFails
    ensures r.BlankInput? || r.Failed? || r.BedVacant? || r.NoMatch? || r.Navigate?
    ensures r.Navigate? ==> r.patient in patients
    ensures r.BedVacant? ==> exists b :: b in beds && BedMatches(b, Trim(input)) && b.bedNumber == r.bedNumber
    ensures !IsBlank(input) && !fetchFails ==> forall k :: FirstBed(beds, Trim(input), k) ==>
      && (r.BedVacant? <==> forall p :: p in patients ==> p.bedId != Some(beds[k].id))
      && (r.BedVacant? ==> r.bedNumber == beds[k].bedNumber)
      && (!r.BedVacant? ==> r.Navigate? && exists i :: FirstOnBed(patients, beds[k].id, i) && patients[i] == r.patient)
    ensures !IsBlank(input) && !fetchFails && (forall b :: b in beds ==> !BedMatches(b, Trim(input))) ==>
      && !r.BedVacant?
      && (r.Navigate? ==> exists i :: FirstSearchMatch(patients, Trim(input), i) && patients[i] == r.patient)
    ensures r.NoMatch? <==> (!IsBlank(input) && !fetchFails
      && (forall b :: b in beds ==> !BedMatches(b, Trim(input)))
      && (forall p :: p in patients ==> !SearchMatches(p, Trim(input))))
  {
    if IsBlank(input) then BlankInput
    else if fetchFails then Failed
    else LookupQuery(Trim(input), beds, patients)
  }

  /** A vacant matching bed ends the search: the name search is not tried even when a resident's name
      contains the typed text. */
  lemma {:induction false} VacantBedHasNoFallback(input: string, beds: seq<Bed>, patients: seq<Patient>, k: nat)
    requires !IsBlank(input)
    requires k < |beds| && BedMatches(beds[k], Trim(input))
    requires forall j :: 0 <= j < k ==> !BedMatches(beds[j], Trim(input))
    requires forall p :: p in patients ==> p.bedId != Some(beds[k].id)
    ensures ManualLookup(input, beds, patients, false) == BedVacant(beds[k].bedNumber)
  {
    assert FirstBed(beds, Trim(input), k);
  }

  /** Surrounding spaces do not matter to the manual search, unlike the home screen's search. */
  lemma ManualLookupTrims(input: string, beds: seq<Bed>, patients: seq<Patient>, fetchFails: bool)
    ensures ManualLookup(Trim(input), beds, patients, fetchFails) == ManualLookup(input, beds, patients, fetchFails)
  {
    TrimIdempotent(input);
  }
}
