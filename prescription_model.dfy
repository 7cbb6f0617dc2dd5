/** The prescription document: its dispensing status enum, its medicine lines
    and the identifier `RX<year><month><day><sequence>` that the pre-save
    hook assigns to a new prescription. */
module PrescriptionModel {
  import opened Common
  import opened Text
  import opened MedicineModel

  /** A prescription's position in the prescription collection. */
  type PrescriptionId = nat

  datatype PrescriptionStatus = Pending | Dispensed | PartiallyDispensed | Cancelled

  const DefaultStatus: PrescriptionStatus := Pending

  function StatusName(s: PrescriptionStatus): string
  {
    match s
    case Pending => "pending"
    case Dispensed => "dispensed"
    case PartiallyDispensed => "partially-dispensed"
    case Cancelled => "cancelled"
  }

  /** The status enum: exactly the four names are accepted. */
  function ParseStatus(s: string): (r: Option<PrescriptionStatus>)
    ensures r.Some? ==> StatusName(r.value) == s
    ensures forall st: PrescriptionStatus :: StatusName(st) == s ==> r == Some(st)
  {
    if s == "pending" then Some(Pending)
    else if s == "dispensed" then Some(Dispensed)
    else if s == "partially-dispensed" then Some(PartiallyDispensed)
    else if s == "cancelled" then Some(Cancelled)
    else None
  }

  datatype Frequency = OnceDaily | TwiceDaily | ThriceDaily | FourTimesDaily | AsNeeded | OtherFrequency

  function FrequencyName(f: Frequency): string
  {
    match f
    case OnceDaily => "once-daily"
    case TwiceDaily => "twice-daily"
    case ThriceDaily => "thrice-daily"
    case FourTimesDaily => "four-times-daily"
    case AsNeeded => "as-needed"
    case OtherFrequency => "other"
  }

  /** The frequency enum of a medicine line. */
  function ParseFrequency(s: string): (r: Option<Frequency>)
    ensures r.Some? ==> FrequencyName(r.value) == s
    ensures forall f: Frequency :: FrequencyName(f) == s ==> r == Some(f)
  {
    if s == "once-daily" then Some(OnceDaily)
    else if s == "twice-daily" then Some(TwiceDaily)
    else if s == "thrice-daily" then Some(ThriceDaily)
    else if s == "four-times-daily" then Some(FourTimesDaily)
    else if s == "as-needed" then Some(AsNeeded)
    else if s == "other" then Some(OtherFrequency)
    else None
  }

  datatype Gender = Male | Female | OtherGender

  function ParseGender(s: string): Option<Gender>
  {
    if s == "male" then Some(Male)
    else if s == "female" then Some(Female)
    else if s == "other" then Some(OtherGender)
    else None
  }

  const DefaultInstructions: string := "Take as directed by physician"

  /** One prescribed medicine; `medicine` is a weak reference to the
      inventory, absent for a manual entry. */
  datatype PrescribedMedicine = PrescribedMedicine(
    medicine: Option<MedicineId>,
    medicineName: string,
    dosage: string,
    frequency: Frequency,
    duration: string,
    quantity: int,
    instructions: string)

  datatype Patient = Patient(name: string, age: Option<int>, gender: Option<Gender>, phone: Option<string>)

  datatype Doctor = Doctor(name: string, contact: Option<string>)

  /** A local calendar day; `month` runs from 1 to 12. */
  datatype CalendarDate = CalendarDate(year: nat, month: nat, day: nat)

  predicate PlausibleDate(d: CalendarDate)
  {
    1000 <= d.year <= 9999 && 1 <= d.month <= 12 && 1 <= d.day <= 31
  }

  datatype Prescription = Prescription(
    prescriptionId: string,
    patient: Patient,
    doctor: Doctor,
    medicines: seq<PrescribedMedicine>,
    prescriptionDate: Timestamp,
    status: PrescriptionStatus,
    dispensedBy: Option<UserId>,
    dispensedAt: Option<Timestamp>,
    createdOn: CalendarDate,
    createdBy: UserId,
    updatedBy: Option<UserId>)

  /** The medicine-line sub-schema: required name, dosage and duration, and a
      quantity of at least 1 (the frequency enum is carried by the type). */
  predicate LineWellFormed(l: PrescribedMedicine)
  {
    l.medicineName != "" && l.dosage != "" && l.duration != "" && l.quantity >= 1
  }

  predicate WellFormed(p: Prescription)
  {
    && p.prescriptionId != ""
    && p.patient.name != ""
    && (p.patient.age.Some? ==> 0 <= p.patient.age.value <= 150)
    && (p.patient.phone.Some? ==> IsMobileNumber(p.patient.phone.value))
    && p.doctor.name != ""
    && (p.doctor.contact.Some? ==> IsMobileNumber(p.doctor.contact.value))
    && forall k :: 0 <= k < |p.medicines| ==> LineWellFormed(p.medicines[k])
  }

  /** The identifier built for the `count + 1`-th prescription of `date`:
      "RX", the year, the month and day padded to two digits, and the
      sequence number padded to four digits. */
  function GeneratedId(date: CalendarDate, count: nat): (id: string)
    ensures |id| >= 2 && id[..2] == "RX"
  {
    "RX" + NatToString(date.year)
      + PadStart(NatToString(date.month), 2, '0')
      + PadStart(NatToString(date.day), 2, '0')
      + PadStart(NatToString(count + 1), 4, '0')
  }

  /** The pre-save hook: an identifier is generated only when none is set. */
  function AssignedId(current: string, date: CalendarDate, count: nat): (r: string)
    ensures current != "" ==> r == current
    ensures current == "" ==> r == GeneratedId(date, count) && r != ""
  {
    if current == "" then GeneratedId(date, count) else current
  }

  /** How many stored prescriptions were created on `date`. */
  function CountCreatedOn(ps: seq<Prescription>, date: CalendarDate): (n: nat)
    ensures n <= |ps|
  {
    if ps == [] then 0
    else CountCreatedOn(ps[..|ps| - 1], date) + (if ps[|ps| - 1].createdOn == date then 1 else 0)
  }

  /** The count is 0 exactly when no prescription was created that day, and
      it is the whole collection exactly when every one was. */
  lemma {:induction false} CountCreatedOnExtremes(ps: seq<Prescription>, date: CalendarDate)
    ensures CountCreatedOn(ps, date) == 0 <==> forall i :: 0 <= i < |ps| ==> ps[i].createdOn != date
    ensures CountCreatedOn(ps, date) == |ps| <==> forall i :: 0 <= i < |ps| ==> ps[i].createdOn == date
  {
    if ps != [] {
      var init := ps[..|ps| - 1];
      CountCreatedOnExtremes(init, date);
      assert forall i :: 0 <= i < |init| ==> init[i] == ps[i];
    }
  }

  datatype IdParts = IdParts(date: CalendarDate, sequence: nat)

  /** Reads an identifier of the generated shape back into its parts. */
  function DecodeId(id: string): Option<IdParts>
  {
    if |id| >= 14 && id[..2] == "RX" && AllDigits(id[2..]) then
      Some(IdParts(CalendarDate(DigitsValue(id[2..6]), DigitsValue(id[6..8]), DigitsValue(id[8..10])),
                   DigitsValue(id[10..])))
    else None
  }

  lemma PaddedWidth(n: nat, width: nat)
    requires 1 <= width && n < Pow10(width)
    ensures |PadStart(NatToString(n), width, '0')| == width
  {
    NatToStringLength(n, width);
  }

  /** Where each part sits in "RX" + year + month + day + sequence. */
  lemma IdLayout(y: string, m: string, d: string, s: string)
    requires |y| == 4 && |m| == 2 && |d| == 2
    ensures var id := "RX" + y + m + d + s;
      && |id| == 10 + |s|
      && id[..2] == "RX" && id[2..6] == y && id[6..8] == m && id[8..10] == d && id[10..] == s
      && id[2..] == y + m + d + s
  {
  }

  lemma AllDigitsConcat(a: string, b: string)
    requires AllDigits(a) && AllDigits(b)
    ensures AllDigits(a + b)
  {
  }

  /** A numeral zero-padded to a width it fits in: its length and value. */
  lemma PaddedPart(n: nat, width: nat)
    requires 1 <= width && n < Pow10(width)
    ensures var p := PadStart(NatToString(n), width, '0');
      |p| == width && AllDigits(p) && DigitsValue(p) == n
  {
    NatToStringLength(n, width);
    PaddedNumeralValue(n, width);
  }

  lemma YearPart(year: nat)
    requires 1000 <= year <= 9999
    ensures var y := NatToString(year);
      |y| == 4 && AllDigits(y) && DigitsValue(y) == year
  {
    assert Pow10(3) == 1000 && Pow10(4) == 10000;
    NatToStringLength(year, 4);
    NatToStringLength(year, 3);
    DigitsValueOfNatToString(year);
  }

  /** For a four-digit year the identifier decodes back to its date and to
      the sequence number `count + 1`; a sequence of 10000 or more is not
      truncated but makes the identifier longer. */
  lemma GeneratedIdDecodes(date: CalendarDate, count: nat)
    requires PlausibleDate(date)
    ensures |GeneratedId(date, count)| == 10 + |PadStart(NatToString(count + 1), 4, '0')|
    ensures count + 1 < 10000 ==> |GeneratedId(date, count)| == 14
    ensures count + 1 >= 10000 ==> |GeneratedId(date, count)| > 14
    ensures DecodeId(GeneratedId(date, count)) == Some(IdParts(date, count + 1))
  {
    var y := NatToString(date.year);
    var m := PadStart(NatToString(date.month), 2, '0');
    var d := PadStart(NatToString(date.day), 2, '0');
    var s := PadStart(NatToString(count + 1), 4, '0');
    YearPart(date.year);
    assert Pow10(2) == 100;
    PaddedPart(date.month, 2);
    PaddedPart(date.day, 2);
    PaddedNumeralValue(count + 1, 4);
    assert |s| >= 4;
    assert count + 1 >= 10000 ==> |s| > 4 by {
      if count + 1 >= 10000 {
        assert Pow10(4) == 10000;
        NatToStringLength(count + 1, 4);
      }
    }
    assert count + 1 < 10000 ==> |s| == 4 by {
      if count + 1 < 10000 {
        assert Pow10(4) == 10000;
        PaddedPart(count + 1, 4);
      }
    }
    var id := GeneratedId(date, count);
    assert id == "RX" + y + m + d + s;
    IdLayout(y, m, d, s);
    AllDigitsConcat(y, m);
    AllDigitsConcat(y + m, d);
    AllDigitsConcat(y + m + d, s);
    assert AllDigits(id[2..]);
  }

  /** Distinct days, or distinct counts on one day, give distinct identifiers. */
  lemma GeneratedIdInjective(d1: CalendarDate, c1: nat, d2: CalendarDate, c2: nat)
    requires PlausibleDate(d1) && PlausibleDate(d2)
    requires GeneratedId(d1, c1) == GeneratedId(d2, c2)
    ensures d1 == d2 && c1 == c2
  {
    GeneratedIdDecodes(d1, c1);
    GeneratedIdDecodes(d2, c2);
  }

  /** The invariant the generator gives the collection: every prescription
      carries the identifier generated from its creation day and the number of
      earlier prescriptions created that day. */
  predicate IdsByCreation(ps: seq<Prescription>)
  {
    forall i :: 0 <= i < |ps| ==> CreationId(ps[i], ps[..i])
  }

  /** `p` was created after the prescriptions `earlier` and carries the
      identifier generated for it then. */
  predicate CreationId(p: Prescription, earlier: seq<Prescription>)
  {
    && PlausibleDate(p.createdOn)
    && p.prescriptionId == GeneratedId(p.createdOn, CountCreatedOn(earlier, p.createdOn))
  }

  lemma CountStep(ps: seq<Prescription>, i: nat, date: CalendarDate)
    requires i < |ps|
    ensures CountCreatedOn(ps[..i + 1], date) == CountCreatedOn(ps[..i], date) + (if ps[i].createdOn == date then 1 else 0)
  {
    var s := ps[..i + 1];
    assert s[..|s| - 1] == ps[..i];
  }

  lemma {:induction false} CountMonotone(ps: seq<Prescription>, i: nat, j: nat, date: CalendarDate)
    requires i <= j <= |ps|
    ensures CountCreatedOn(ps[..i], date) <= CountCreatedOn(ps[..j], date)
    decreases j - i
  {
    if i < j {
      CountMonotone(ps, i, j - 1, date);
      CountStep(ps, j - 1, date);
    }
  }

  /** The unique index on `prescriptionId` never rejects a generated
      identifier: under the invariant, no two prescriptions share one. */
  lemma IdsUnique(ps: seq<Prescription>)
    requires IdsByCreation(ps)
    ensures forall i, j :: 0 <= i < j < |ps| ==> ps[i].prescriptionId != ps[j].prescriptionId
  {
    forall i, j | 0 <= i < j < |ps|
      ensures ps[i].prescriptionId != ps[j].prescriptionId
    {
      var d := ps[i].createdOn;
      assert CreationId(ps[i], ps[..i]) && CreationId(ps[j], ps[..j]);
      CountStep(ps, i, d);
      CountMonotone(ps, i + 1, j, d);
      if ps[i].prescriptionId == ps[j].prescriptionId {
        GeneratedIdInjective(d, CountCreatedOn(ps[..i], d), ps[j].createdOn, CountCreatedOn(ps[..j], ps[j].createdOn));
      }
    }
  }

  predicate SameDays(a: seq<Prescription>, b: seq<Prescription>)
  {
    |a| == |b| && forall i :: 0 <= i < |a| ==> a[i].createdOn == b[i].createdOn
  }

  lemma {:induction false} CountSameDays(a: seq<Prescription>, b: seq<Prescription>, date: CalendarDate)
    requires SameDays(a, b)
    ensures CountCreatedOn(a, date) == CountCreatedOn(b, date)
    decreases |a|
  {
    if a != [] {
      assert SameDays(a[..|a| - 1], b[..|b| - 1]);
      CountSameDays(a[..|a| - 1], b[..|b| - 1], date);
    }
  }

  /** Replacing a prescription by one with the same identifier and creation
      day keeps the invariant. */
  lemma ReplaceKeepsIds(ps: seq<Prescription>, k: nat, q: Prescription)
    requires IdsByCreation(ps) && k < |ps|
    requires q.prescriptionId == ps[k].prescriptionId && q.createdOn == ps[k].createdOn
    ensures IdsByCreation(ps[k := q])
  {
    var ps' := ps[k := q];
    forall i | 0 <= i < |ps'|
      ensures CreationId(ps'[i], ps'[..i])
    {
      var d := ps[i].createdOn;
      assert ps'[i].createdOn == d && ps'[i].prescriptionId == ps[i].prescriptionId;
      ReplacedPrefixSameDays(ps, k, q, i);
      CountSameDays(ps[..i], ps'[..i], d);
      assert CreationId(ps[i], ps[..i]);
    }
  }

  lemma ReplacedPrefixSameDays(ps: seq<Prescription>, k: nat, q: Prescription, i: nat)
    requires k < |ps| && i <= |ps| && q.createdOn == ps[k].createdOn
    ensures SameDays(ps[..i], ps[k := q][..i])
  {
  }

  /** Appending a prescription whose identifier was generated from the
      current count of its day keeps the invariant. */
  lemma AppendKeepsIds(ps: seq<Prescription>, q: Prescription)
    requires IdsByCreation(ps) && CreationId(q, ps)
    ensures IdsByCreation(ps + [q])
  {
    var ps' := ps + [q];
    forall i | 0 <= i < |ps'|
      ensures CreationId(ps'[i], ps'[..i])
    {
      if i < |ps| {
        PrefixOfAppend(ps, q, i);
        assert CreationId(ps[i], ps[..i]);
      } else {
        assert ps'[..i] == ps;
      }
    }
  }

  lemma PrefixOfAppend(ps: seq<Prescription>, q: Prescription, i: nat)
    requires i < |ps|
    ensures (ps + [q])[i] == ps[i] && (ps + [q])[..i] == ps[..i]
  {
  }
}
