/** The prescription handlers: create and update with their request schema
    and the linkage of each prescribed medicine to the inventory, the save
    that assigns a new prescription its identifier, and the status PATCH. */
module PrescriptionRoutes {
  import opened Common
  import opened Text
  import MedicineModel
  import opened PrescriptionModel
  import opened Database
  import BillingRoutes

  datatype LineRequest = LineRequest(
    medicineName: string,
    dosage: string,
    frequency: string,
    duration: string,
    quantity: int,
    instructions: Option<string>)

  datatype PatientRequest = PatientRequest(name: string, age: Option<int>, gender: Option<string>, phone: Option<string>)

  datatype DoctorRequest = DoctorRequest(name: string, contact: Option<string>)

  /** A create or update body. `prescriptionId` stands for a key the schema
      does not list, which a client may still send. */
  datatype PrescriptionRequest = PrescriptionRequest(
    patient: PatientRequest,
    doctor: DoctorRequest,
    medicines: seq<LineRequest>,
    prescriptionDate: Option<Timestamp>,
    prescriptionId: Option<string>)

  datatype PrescriptionError =
    | InvalidRequest
    | PrescriptionNotFound
    | InvalidStatus
    | ValidationFailed   // the document validation run by `save`

  function ErrorMessage(e: PrescriptionError): string
  {
    match e
    case InvalidRequest => "Validation error"
    case PrescriptionNotFound => "Prescription not found"
    case InvalidStatus => "Invalid status"
    case ValidationFailed => "Server error creating prescription"
  }

  predicate ValidLine(l: LineRequest)
  {
    && l.medicineName != "" && l.dosage != "" && l.duration != ""
    && ParseFrequency(l.frequency).Some?
    && l.quantity >= 1
    && (l.instructions.Some? ==> l.instructions.value != "")
  }

  predicate ValidPatient(p: PatientRequest)
  {
    && 2 <= |p.name| <= 100
    && (p.age.Some? ==> 0 <= p.age.value <= 150)
    && (p.gender.Some? ==> ParseGender(p.gender.value).Some?)
    && (p.phone.Some? ==> IsMobileNumber(p.phone.value))
  }

  predicate ValidDoctor(d: DoctorRequest)
  {
    2 <= |d.name| <= 100 && (d.contact.Some? ==> IsMobileNumber(d.contact.value))
  }

  /** The request schema: at least one line, every line valid, and no key
      outside the schema, so a client can never supply `prescriptionId`. */
  predicate ValidPrescriptionRequest(r: PrescriptionRequest)
  {
    && ValidPatient(r.patient)
    && ValidDoctor(r.doctor)
    && |r.medicines| >= 1
    && (forall k :: 0 <= k < |r.medicines| ==> ValidLine(r.medicines[k]))
    && r.prescriptionId.None?
  }

  /** One line with its inventory link: the first active medicine whose name
      contains the line's name, ignoring case, or none; the line's own data
      is kept and a missing instruction takes the schema default. */
  function LinkLine(ms: seq<MedicineModel.Medicine>, l: LineRequest): (p: PrescribedMedicine)
    requires ValidLine(l)
    ensures p.medicine.Some? ==>
      && p.medicine.value < |ms|
      && ms[p.medicine.value].isActive && ContainsIgnoreCase(ms[p.medicine.value].name, l.medicineName)
      && forall j :: 0 <= j < p.medicine.value ==> !Matches(ms, j, ActiveByName(l.medicineName))
    ensures p.medicine.None? <==> forall j :: 0 <= j < |ms| ==> !Matches(ms, j, ActiveByName(l.medicineName))
    ensures p.medicineName == l.medicineName && p.dosage == l.dosage && p.duration == l.duration
    ensures FrequencyName(p.frequency) == l.frequency && p.quantity == l.quantity
    ensures p.instructions == (if l.instructions.Some? then l.instructions.value else DefaultInstructions)
    ensures LineWellFormed(p)
  {
    PrescribedMedicine(FindFirst(ms, ActiveByName(l.medicineName)), l.medicineName, l.dosage,
                       ParseFrequency(l.frequency).value, l.duration, l.quantity,
                       if l.instructions.Some? then l.instructions.value else DefaultInstructions)
  }

  /** Every line is linked on its own, in order. */
  function LinkMedicines(ms: seq<MedicineModel.Medicine>, lines: seq<LineRequest>): (r: seq<PrescribedMedicine>)
    requires forall k :: 0 <= k < |lines| ==> ValidLine(lines[k])
    ensures |r| == |lines| && forall k :: 0 <= k < |r| ==> r[k] == LinkLine(ms, lines[k])
  {
    seq(|lines|, k requires 0 <= k < |lines| => LinkLine(ms, lines[k]))
  }

  /** Linkage looks only at names and the active flag, so stock movements
      (a bill dispensing, a stock PATCH) never change what a line links to. */
  lemma LinkingIgnoresStock(a: seq<MedicineModel.Medicine>, b: seq<MedicineModel.Medicine>, lines: seq<LineRequest>)
    requires SameCatalogue(a, b)
    requires forall k :: 0 <= k < |lines| ==> ValidLine(lines[k])
    ensures LinkMedicines(a, lines) == LinkMedicines(b, lines)
  {
    forall k | 0 <= k < |lines|
      ensures LinkLine(a, lines[k]) == LinkLine(b, lines[k])
    {
      FindFirstIgnoresStock(a, b, ActiveByName(lines[k].medicineName));
    }
  }

  function PatientOf(p: PatientRequest): Patient
    requires ValidPatient(p)
  {
    Patient(p.name, p.age, if p.gender.Some? then ParseGender(p.gender.value) else None, p.phone)
  }

  function DoctorOf(d: DoctorRequest): Doctor
  {
    Doctor(d.name, d.contact)
  }

  /** The document `Prescription.create` starts from: the request's fields,
      the linked lines, the schema defaults, and no identifier yet. */
  function Draft(req: PrescriptionRequest, ms: seq<MedicineModel.Medicine>, user: UserId, now: Timestamp, today: CalendarDate): (p: Prescription)
    requires ValidPrescriptionRequest(req)
    ensures p.prescriptionId == ""
    ensures p.status == DefaultStatus && p.dispensedBy == None && p.dispensedAt == None
    ensures p.medicines == LinkMedicines(ms, req.medicines)
    ensures p.prescriptionDate == (if req.prescriptionDate.Some? then req.prescriptionDate.value else now)
    ensures p.createdOn == today && p.createdBy == user && p.updatedBy == None
    ensures forall id :: id != "" ==> WellFormed(p.(prescriptionId := id))
  {
    Prescription("", PatientOf(req.patient), DoctorOf(req.doctor), LinkMedicines(ms, req.medicines),
                 if req.prescriptionDate.Some? then req.prescriptionDate.value else now,
                 DefaultStatus, None, None, today, user, None)
  }

  /** The document validation `save` runs. */
  function Validate(p: Prescription): (r: Result<Prescription, PrescriptionError>)
    ensures r.Ok? <==> WellFormed(p)
    ensures r.Ok? ==> r.value == p
    ensures r.Err? ==> r.error == ValidationFailed
  {
    if WellFormed(p) then Ok(p) else Err(ValidationFailed)
  }

  /** `save` as the framework runs it: validation first, then the pre-save
      hook that fills in a missing identifier. A document without an
      identifier therefore fails the required check before the hook runs. */
  function SaveAsWritten(p: Prescription, date: CalendarDate, count: nat): (r: Result<Prescription, PrescriptionError>)
    ensures r.Ok? <==> WellFormed(p)
    ensures p.prescriptionId == "" ==> r == Err(ValidationFailed)
    ensures r.Ok? ==> r.value == p
  {
    match Validate(p)
    case Err(e) => Err(e)
    case Ok(v) => Ok(v.(prescriptionId := AssignedId(v.prescriptionId, date, count)))
  }

  /** `save` with the identifier assigned before validation, which is what
      the generator is for. */
  function Save(p: Prescription, date: CalendarDate, count: nat): (r: Result<Prescription, PrescriptionError>)
    ensures r.Ok? ==> WellFormed(r.value) && r.value.prescriptionId != ""
    ensures r.Ok? ==> r.value == p.(prescriptionId := AssignedId(p.prescriptionId, date, count))
    ensures r.Ok? <==> WellFormed(p.(prescriptionId := AssignedId(p.prescriptionId, date, count)))
  {
    Validate(p.(prescriptionId := AssignedId(p.prescriptionId, date, count)))
  }

  /** As the code runs, every prescription the create handler builds from a
      valid request is refused by validation: the request cannot carry an
      identifier and the hook that would generate one runs too late. */
  lemma CreateAlwaysFailsAsWritten(req: PrescriptionRequest, ms: seq<MedicineModel.Medicine>, user: UserId, now: Timestamp,
                                   today: CalendarDate, count: nat)
    requires ValidPrescriptionRequest(req)
    ensures SaveAsWritten(Draft(req, ms, user, now, today), today, count) == Err(ValidationFailed)
  {
  }

  /** With the hook run first, the same document is stored under the
      identifier generated for today's count. */
  lemma CreateSavesWithGeneratedId(req: PrescriptionRequest, ms: seq<MedicineModel.Medicine>, user: UserId, now: Timestamp,
                                   today: CalendarDate, count: nat)
    requires ValidPrescriptionRequest(req)
    ensures Save(Draft(req, ms, user, now, today), today, count)
         == Ok(Draft(req, ms, user, now, today).(prescriptionId := GeneratedId(today, count)))
  {
    var p := Draft(req, ms, user, now, today);
    assert GeneratedId(today, count) != "" by {
      assert AssignedId("", today, count) == GeneratedId(today, count);
    }
    assert WellFormed(p.(prescriptionId := GeneratedId(today, count)));
  }

  /** On a document that is already stored both orders agree: it is kept
      as it is, identifier included. */
  lemma SavesAgreeOnStoredDocuments(p: Prescription, date: CalendarDate, count: nat)
    requires WellFormed(p)
    ensures SaveAsWritten(p, date, count) == Save(p, date, count) == Ok(p)
  {
    assert p.(prescriptionId := AssignedId(p.prescriptionId, date, count)) == p;
  }

  /** POST /api/prescriptions, with the corrected save that assigns the
      identifier before validating. As written, every valid request is refused
      (`SaveAsWritten`, `CreateAlwaysFailsAsWritten`). The sequence part of
      the identifier counts the prescriptions already created today. */
  method CreatePrescription(db: Store, req: PrescriptionRequest, user: UserId, now: Timestamp, today: CalendarDate)
    returns (r: Result<PrescriptionId, PrescriptionError>)
    requires db.Valid() && PlausibleDate(today)
    modifies db`prescriptions
    ensures db.Valid()
    ensures !ValidPrescriptionRequest(req) ==> r == Err(InvalidRequest) && db.prescriptions == old(db.prescriptions)
    ensures ValidPrescriptionRequest(req) ==>
      && r == Ok(|old(db.prescriptions)|)
      && db.prescriptions == old(db.prescriptions) +
           [Draft(req, db.medicines, user, now, today).(prescriptionId := GeneratedId(today, CountCreatedOn(old(db.prescriptions), today)))]
  {
    if !ValidPrescriptionRequest(req) {
      return Err(InvalidRequest);
    }
    var draft := Draft(req, db.medicines, user, now, today);
    var count := CountCreatedOn(db.prescriptions, today);
    CreateSavesWithGeneratedId(req, db.medicines, user, now, today, count);
    var saved := Save(draft, today, count).value;
    AppendKeepsIds(db.prescriptions, saved);
    r := Ok(|db.prescriptions|);
    db.prescriptions := db.prescriptions + [saved];
  }

  /** Replacing a stored prescription by a well-formed one with the same
      identifier and creation day keeps the collection valid. */
  lemma ReplaceKeepsValid(ps: seq<Prescription>, k: nat, q: Prescription)
    requires ValidPrescriptions(ps) && k < |ps| && WellFormed(q)
    requires q.prescriptionId == ps[k].prescriptionId && q.createdOn == ps[k].createdOn
    ensures ValidPrescriptions(ps[k := q])
  {
    ReplaceKeepsIds(ps, k, q);
  }

  /** The document after a valid PUT: patient, doctor and lines are
      replaced, the date only when the body has one; the identifier, the
      status, the dispensing fields, the creation day and the creator are
      kept. */
  function Replaced(p: Prescription, req: PrescriptionRequest, ms: seq<MedicineModel.Medicine>, user: UserId): (u: Prescription)
    requires ValidPrescriptionRequest(req)
    ensures p.prescriptionId != "" ==> WellFormed(u)
    ensures u.prescriptionId == p.prescriptionId && u.createdOn == p.createdOn && u.createdBy == p.createdBy
    ensures u.status == p.status && u.dispensedBy == p.dispensedBy && u.dispensedAt == p.dispensedAt
    ensures u.patient == PatientOf(req.patient) && u.doctor == DoctorOf(req.doctor)
    ensures u.medicines == LinkMedicines(ms, req.medicines) && u.updatedBy == Some(user)
    ensures u.prescriptionDate == (if req.prescriptionDate.Some? then req.prescriptionDate.value else p.prescriptionDate)
  {
    p.(patient := PatientOf(req.patient), doctor := DoctorOf(req.doctor), medicines := LinkMedicines(ms, req.medicines),
       prescriptionDate := if req.prescriptionDate.Some? then req.prescriptionDate.value else p.prescriptionDate,
       updatedBy := Some(user))
  }

  /** PUT /api/prescriptions/:id. The id is looked up before the body is
      validated. */
  method UpdatePrescription(db: Store, id: PrescriptionId, req: PrescriptionRequest, user: UserId)
    returns (r: Result<PrescriptionId, PrescriptionError>)
    requires db.Valid()
    modifies db`prescriptions
    ensures db.Valid()
    ensures id >= |old(db.prescriptions)| ==> r == Err(PrescriptionNotFound) && db.prescriptions == old(db.prescriptions)
    ensures id < |old(db.prescriptions)| && !ValidPrescriptionRequest(req) ==>
      r == Err(InvalidRequest) && db.prescriptions == old(db.prescriptions)
    ensures id < |old(db.prescriptions)| && ValidPrescriptionRequest(req) ==>
      && r == Ok(id)
      && db.prescriptions == old(db.prescriptions)[id := Replaced(old(db.prescriptions)[id], req, db.medicines, user)]
  {
    if id >= |db.prescriptions| {
      return Err(PrescriptionNotFound);
    }
    if !ValidPrescriptionRequest(req) {
      return Err(InvalidRequest);
    }
    var u := Replaced(db.prescriptions[id], req, db.medicines, user);
    ReplaceKeepsValid(db.prescriptions, id, u);
    db.prescriptions := db.prescriptions[id := u];
    r := Ok(id);
  }

  /** The status PATCH on one document: any status may follow any status,
      `status` and `updatedBy` are always set, the dispensing fields only for
      a dispensed or partially dispensed prescription, and nothing else
      changes. */
  function StatusUpdated(p: Prescription, st: PrescriptionStatus, user: UserId, now: Timestamp): (q: Prescription)
    ensures q.status == st && q.updatedBy == Some(user)
    ensures st == Dispensed || st == PartiallyDispensed ==> q.dispensedBy == Some(user) && q.dispensedAt == Some(now)
    ensures !(st == Dispensed || st == PartiallyDispensed) ==> q.dispensedBy == p.dispensedBy && q.dispensedAt == p.dispensedAt
    ensures q == p.(status := q.status, updatedBy := q.updatedBy, dispensedBy := q.dispensedBy, dispensedAt := q.dispensedAt)
  {
    var q := p.(status := st, updatedBy := Some(user));
    if st == Dispensed || st == PartiallyDispensed then q.(dispensedBy := Some(user), dispensedAt := Some(now)) else q
  }

  /** Linking a prescription to a new bill is the status PATCH to
      `dispensed` by the same user at the same time. */
  lemma BillLinkIsDispensing(p: Prescription, user: UserId, now: Timestamp)
    ensures BillingRoutes.LinkedDispensed(p, user, now) == StatusUpdated(p, Dispensed, user, now)
  {
  }

  /** PATCH /api/prescriptions/:id/status. The status is checked before the
      id is looked up. */
  method UpdateStatus(db: Store, id: PrescriptionId, status: string, user: UserId, now: Timestamp)
    returns (r: Result<PrescriptionId, PrescriptionError>)
    requires db.Valid()
    modifies db`prescriptions
    ensures db.Valid()
    ensures |db.prescriptions| == |old(db.prescriptions)|
    ensures ParseStatus(status).None? ==> r == Err(InvalidStatus) && db.prescriptions == old(db.prescriptions)
    ensures ParseStatus(status).Some? && id >= |old(db.prescriptions)| ==>
      r == Err(PrescriptionNotFound) && db.prescriptions == old(db.prescriptions)
    ensures ParseStatus(status).Some? && id < |old(db.prescriptions)| ==>
      && r == Ok(id)
      && db.prescriptions == old(db.prescriptions)[id := StatusUpdated(old(db.prescriptions)[id], ParseStatus(status).value, user, now)]
  {
    var st := ParseStatus(status);
    if st.None? {
      return Err(InvalidStatus);
    }
    if id >= |db.prescriptions| {
      return Err(PrescriptionNotFound);
    }
    var p := db.prescriptions[id];
    p := p.(status := st.value);
    p := p.(updatedBy := Some(user));
    if st.value == Dispensed || st.value == PartiallyDispensed {
      p := p.(dispensedBy := Some(user));
      p := p.(dispensedAt := Some(now));
    }
    assert p == StatusUpdated(db.prescriptions[id], st.value, user, now);
    ReplaceKeepsValid(db.prescriptions, id, p);
    db.prescriptions := db.prescriptions[id := p];
    r := Ok(id);
  }
}
