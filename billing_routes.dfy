/** The bill handlers: create (validate the request, match each item against
    the active inventory, check and decrement stock item by item, build the
    bill, then mark a linked prescription dispensed), update (replace the
    supplied fields) and cancel (a soft status change). */
module BillingRoutes {
  import opened Common
  import opened Text
  import opened MedicineModel
  import opened BillModel
  import PrescriptionModel
  import opened Database

  /** One requested line, as the request body carries it. */
  datatype ItemRequest = ItemRequest(
    medicineName: string,
    batchNumber: string,
    quantity: int,
    unitPrice: real,
    discount: Option<real>,
    taxRate: Option<real>)

  datatype BillRequest = BillRequest(
    customer: Customer,
    items: seq<ItemRequest>,
    paymentMethod: string,
    amountPaid: Option<real>,
    prescription: Option<PrescriptionModel.PrescriptionId>,
    notes: Option<string>)

  datatype BillError =
    | InvalidRequest
    | InsufficientStock(medicineName: string, available: int, required: int)
    | BillNotFound

  function ErrorMessage(e: BillError): string
  {
    match e
    case InvalidRequest => "Validation error"
    case InsufficientStock(name, available, required) =>
      "Insufficient stock for " + name + ". Available: " + IntToString(available) + ", Required: " + IntToString(required)
    case BillNotFound => "Bill not found"
  }

  /** An optional string of the request schema: absent, or a non-empty string. */
  predicate OptionalText(s: Option<string>)
  {
    s.Some? ==> s.value != ""
  }

  predicate ValidItemRequest(it: ItemRequest)
  {
    && it.medicineName != ""
    && it.batchNumber != ""
    && it.quantity >= 1
    && it.unitPrice >= 0.0
    && (it.discount.Some? ==> it.discount.value >= 0.0)
    && (it.taxRate.Some? ==> it.taxRate.value >= 0.0)
  }

  /** The request schema of bill creation. */
  predicate ValidBillRequest(r: BillRequest)
  {
    && 2 <= |r.customer.name| <= 100
    && (r.customer.phone.Some? ==> IsMobileNumber(r.customer.phone.value))
    && OptionalText(r.customer.email)
    && OptionalText(r.customer.address)
    && OptionalText(r.customer.gstNumber)
    && |r.items| >= 1
    && (forall k :: 0 <= k < |r.items| ==> ValidItemRequest(r.items[k]))
    && ParsePaymentMethod(r.paymentMethod).Some?
    && (r.amountPaid.Some? ==> r.amountPaid.value >= 0.0)
    && OptionalText(r.notes)
  }

  /** The inventory lookup for one item: an active medicine with exactly this
      batch whose name or generic name contains the item's name. */
  function QueryFor(item: ItemRequest): MedicineQuery
  {
    ActiveByNameOrGeneric(item.medicineName, item.batchNumber)
  }

  /** The denormalised line pushed for an item: the literal name and batch,
      `discount || 0` and `taxRate || 12`; derived amounts start at 0. */
  function ToLineItem(item: ItemRequest, medicine: Option<MedicineId>): (l: LineItem)
    ensures l.medicine == medicine && l.medicineName == item.medicineName && l.batchNumber == item.batchNumber
    ensures l.quantity == item.quantity && l.unitPrice == item.unitPrice
    ensures l.totalPrice == 0.0 && l.taxAmount == 0.0
    ensures l.discount == (if item.discount.Some? then item.discount.value else 0.0)
    ensures item.taxRate.None? || item.taxRate == Some(0.0) ==> l.taxRate == DefaultTaxRate
    ensures item.taxRate.Some? && item.taxRate.value != 0.0 ==> l.taxRate == item.taxRate.value
  {
    var discount := if item.discount.Some? then item.discount.value else 0.0;
    var taxRate := if item.taxRate.Some? then EffectiveTaxRate(item.taxRate.value) else DefaultTaxRate;
    LineItem(medicine, item.medicineName, item.batchNumber, item.quantity, item.unitPrice, 0.0, discount, taxRate, 0.0)
  }

  /** The stock decrement for an accepted item, attributed to `user`. */
  function Dispense(m: Medicine, quantity: int, user: UserId): (r: Medicine)
    ensures r.stock.current == m.stock.current - quantity && r.updatedBy == Some(user)
    ensures r.stock.minimum == m.stock.minimum && r.stock.maximum == m.stock.maximum
    ensures r.(stock := m.stock, updatedBy := m.updatedBy) == m
  {
    m.(stock := m.stock.(current := m.stock.current - quantity), updatedBy := Some(user))
  }

  /** The inventory after the item loop, the lines pushed so far and the
      error the loop stopped on, if any. */
  datatype Outcome = Outcome(inventory: seq<Medicine>, lines: seq<LineItem>, failure: Option<BillError>)

  /** The item loop of bill creation, item by item in request order. Each
      decrement is saved before the next item is looked at, and nothing is
      undone when a later item fails. */
  function ProcessItems(inv: seq<Medicine>, items: seq<ItemRequest>, user: UserId): Outcome
    decreases |items|
  {
    if items == [] then Outcome(inv, [], None)
    else
      var item := items[0];
      var found := FindFirst(inv, QueryFor(item));
      if found.Some? && inv[found.value].stock.current < item.quantity then
        Outcome(inv, [], Some(InsufficientStock(item.medicineName, inv[found.value].stock.current, item.quantity)))
      else
        var next := if found.Some? then inv[found.value := Dispense(inv[found.value], item.quantity, user)] else inv;
        var rest := ProcessItems(next, items[1..], user);
        Outcome(rest.inventory, [ToLineItem(item, found)] + rest.lines, rest.failure)
  }

  function Prepend(lines: seq<LineItem>, o: Outcome): Outcome
  {
    o.(lines := lines + o.lines)
  }

  /** The prescription update made after a bill is created for it. */
  function LinkedDispensed(p: PrescriptionModel.Prescription, user: UserId, now: Timestamp): (r: PrescriptionModel.Prescription)
    ensures r.status == PrescriptionModel.Dispensed && r.dispensedBy == Some(user) && r.dispensedAt == Some(now)
    ensures r.updatedBy == Some(user)
    ensures r.(status := p.status, dispensedBy := p.dispensedBy, dispensedAt := p.dispensedAt, updatedBy := p.updatedBy) == p
  {
    p.(status := PrescriptionModel.Dispensed, dispensedBy := Some(user), dispensedAt := Some(now), updatedBy := Some(user))
  }

  /** `findByIdAndUpdate` on the linked prescription: an id that names no
      prescription updates nothing and is not an error. */
  function LinkPrescription(ps: seq<PrescriptionModel.Prescription>, id: Option<PrescriptionModel.PrescriptionId>,
                            user: UserId, now: Timestamp): (r: seq<PrescriptionModel.Prescription>)
    ensures |r| == |ps|
    ensures forall j :: 0 <= j < |ps| && id != Some(j) ==> r[j] == ps[j]
    ensures id.Some? && id.value < |ps| ==>
      && r[id.value].status == PrescriptionModel.Dispensed
      && r[id.value].dispensedBy == Some(user) && r[id.value].dispensedAt == Some(now)
      && r[id.value].prescriptionId == ps[id.value].prescriptionId
  {
    if id.Some? && id.value < |ps| then ps[id.value := LinkedDispensed(ps[id.value], user, now)] else ps
  }

  /** What the created bill holds: the request's fields, the processed lines
      with their derived amounts, and consistent totals. */
  ghost predicate CreatedFrom(b: Bill, req: BillRequest, lines: seq<LineItem>, user: UserId)
    reads b
  {
    && b.customer == req.customer
    && b.items == DerivedItems(lines)
    && Some(b.paymentMethod) == ParsePaymentMethod(req.paymentMethod)
    && b.amountPaid == (if req.amountPaid.Some? then req.amountPaid.value else 0.0)
    && b.prescription == req.prescription
    && b.notes == req.notes
    && b.status == Finalized
    && b.createdBy == user
    && b.updatedBy == None
    && b.TotalsDerived()
  }

  lemma DispensePreservesValid(ms: seq<Medicine>, f: nat, quantity: int, user: UserId)
    requires f < |ms| && ms[f].stock.current >= quantity
    requires ValidInventory(ms)
    ensures ValidInventory(ms[f := Dispense(ms[f], quantity, user)])
  {
    var ms' := ms[f := Dispense(ms[f], quantity, user)];
    assert forall i :: 0 <= i < |ms'| ==> ms'[i].batchNumber == ms[i].batchNumber;
  }

  lemma LinkPreservesValid(ps: seq<PrescriptionModel.Prescription>, id: Option<PrescriptionModel.PrescriptionId>,
                                user: UserId, now: Timestamp)
    requires ValidPrescriptions(ps)
    ensures var ps' := LinkPrescription(ps, id, user, now);
      |ps'| == |ps| && ValidPrescriptions(ps')
  {
    if id.Some? && id.value < |ps| {
      var k := id.value;
      var q := LinkedDispensed(ps[k], user, now);
      assert PrescriptionModel.WellFormed(q) by {
        assert PrescriptionModel.WellFormed(ps[k]);
      }
      var ps' := ps[k := q];
      assert forall i :: 0 <= i < |ps'| ==> PrescriptionModel.WellFormed(ps'[i]);
      PrescriptionModel.ReplaceKeepsIds(ps, k, q);
    }
  }

  /** `Bill.create`: a new document from the request and the processed
      lines, saved once, which runs both hooks. */
  method NewBill(req: BillRequest, lines: seq<LineItem>, user: UserId) returns (b: Bill)
    requires ParsePaymentMethod(req.paymentMethod).Some?
    ensures fresh(b) && CreatedFrom(b, req, lines, user)
  {
    var paymentMethod := ParsePaymentMethod(req.paymentMethod).value;
    var amountPaid := if req.amountPaid.Some? then req.amountPaid.value else 0.0;
    b := new Bill(req.customer, lines, paymentMethod, amountPaid, req.prescription, req.notes, user);
    b.Save();
  }

  /** The item loop of bill creation, run against the store: the stored
      inventory ends as the loop leaves it, on success and on failure. */
  method DispenseItems(db: Store, items: seq<ItemRequest>, user: UserId) returns (lines: seq<LineItem>, failure: Option<BillError>)
    requires db.Valid()
    modifies db`medicines
    ensures db.Valid()
    ensures ProcessItems(old(db.medicines), items, user) == Outcome(db.medicines, lines, failure)
  {
    lines := [];
    var i := 0;
    while i < |items|
      invariant 0 <= i <= |items|
      invariant ProcessItems(old(db.medicines), items, user) == Prepend(lines, ProcessItems(db.medicines, items[i..], user))
      invariant ValidInventory(db.medicines)
    {
      var item := items[i];
      assert items[i..][0] == item && items[i..][1..] == items[i + 1..];
      var found := FindFirst(db.medicines, QueryFor(item));
      if found.Some? && db.medicines[found.value].stock.current < item.quantity {
        return lines, Some(InsufficientStock(item.medicineName, db.medicines[found.value].stock.current, item.quantity));
      }
      lines := lines + [ToLineItem(item, found)];
      if found.Some? {
        DispensePreservesValid(db.medicines, found.value, item.quantity, user);
        db.medicines := db.medicines[found.value := Dispense(db.medicines[found.value], item.quantity, user)];
      }
      i := i + 1;
    }
    assert items[i..] == [];
    failure := None;
  }

  /** POST /api/billing. */
  method CreateBill(db: Store, req: BillRequest, user: UserId, now: Timestamp) returns (r: Result<nat, BillError>)
    requires db.Valid()
    modifies db
    ensures db.Valid()
    ensures !ValidBillRequest(req) ==>
      && r == Err(InvalidRequest)
      && db.medicines == old(db.medicines) && db.bills == old(db.bills) && db.prescriptions == old(db.prescriptions)
    ensures ValidBillRequest(req) ==>
      var o := ProcessItems(old(db.medicines), req.items, user);
      && db.medicines == o.inventory
      && (o.failure.Some? ==>
            r == Err(o.failure.value) && db.bills == old(db.bills) && db.prescriptions == old(db.prescriptions))
      && (o.failure.None? ==>
            && r == Ok(|old(db.bills)|)
            && |db.bills| == |old(db.bills)| + 1
            && db.bills[..|old(db.bills)|] == old(db.bills)
            && fresh(db.bills[|old(db.bills)|])
            && CreatedFrom(db.bills[|old(db.bills)|], req, o.lines, user)
            && db.prescriptions == LinkPrescription(old(db.prescriptions), req.prescription, user, now))
  {
    if !ValidBillRequest(req) {
      return Err(InvalidRequest);
    }
    var processed, failure := DispenseItems(db, req.items, user);
    if failure.Some? {
      return Err(failure.value);
    }
    var bill := NewBill(req, processed, user);
    db.bills := db.bills + [bill];
    LinkPreservesValid(db.prescriptions, req.prescription, user, now);
    if req.prescription.Some? && req.prescription.value < |db.prescriptions| {
      var id := req.prescription.value;
      db.prescriptions := db.prescriptions[id := LinkedDispensed(db.prescriptions[id], user, now)];
    }
    r := Ok(|db.bills| - 1);
  }

  /** The schema paths a PUT body may carry; an absent field keeps its
      value. `prescription` is `Some(None)` when the body clears the link. */
  datatype BillPatch = BillPatch(
    customer: Option<Customer>,
    prescription: Option<Option<PrescriptionModel.PrescriptionId>>,
    items: Option<seq<LineItem>>,
    subtotal: Option<real>,
    totalDiscount: Option<real>,
    totalTax: Option<real>,
    grandTotal: Option<real>,
    paymentMethod: Option<PaymentMethod>,
    paymentStatus: Option<PaymentStatus>,
    amountPaid: Option<real>,
    changeGiven: Option<real>,
    notes: Option<string>,
    status: Option<BillStatus>,
    createdBy: Option<UserId>)

  function Patched<T>(patch: Option<T>, current: T): T
  {
    if patch.Some? then patch.value else current
  }

  /** The document after a PUT: each supplied field replaces the stored one
      and `updatedBy` is set; nothing is derived again, so a patch that
      supplies new lines but no totals leaves the old totals in place. */
  function ApplyPatch(d: BillDocument, patch: BillPatch, user: UserId): (r: BillDocument)
    ensures r.updatedBy == Some(user)
    ensures patch.items.Some? ==> r.items == patch.items.value
    ensures patch.items.None? ==> r.items == d.items
    ensures patch.subtotal.None? && patch.totalDiscount.None? && patch.totalTax.None? && patch.grandTotal.None? ==>
      r.subtotal == d.subtotal && r.totalDiscount == d.totalDiscount && r.totalTax == d.totalTax && r.grandTotal == d.grandTotal
    ensures patch.paymentStatus.None? && patch.changeGiven.None? ==>
      r.paymentStatus == d.paymentStatus && r.changeGiven == d.changeGiven
    ensures patch.prescription.None? ==> r.prescription == d.prescription
    ensures patch.createdBy.None? ==> r.createdBy == d.createdBy
    ensures patch.createdBy.Some? ==> r.createdBy == patch.createdBy.value
    ensures patch == BillPatch(None, None, None, None, None, None, None, None, None, None, None, None, None, None) ==>
      r == d.(updatedBy := Some(user))
  {
    d.(customer := Patched(patch.customer, d.customer),
       prescription := Patched(patch.prescription, d.prescription),
       items := Patched(patch.items, d.items),
       subtotal := Patched(patch.subtotal, d.subtotal),
       totalDiscount := Patched(patch.totalDiscount, d.totalDiscount),
       totalTax := Patched(patch.totalTax, d.totalTax),
       grandTotal := Patched(patch.grandTotal, d.grandTotal),
       paymentMethod := Patched(patch.paymentMethod, d.paymentMethod),
       paymentStatus := Patched(patch.paymentStatus, d.paymentStatus),
       amountPaid := Patched(patch.amountPaid, d.amountPaid),
       changeGiven := Patched(patch.changeGiven, d.changeGiven),
       notes := if patch.notes.Some? then patch.notes else d.notes,
       status := Patched(patch.status, d.status),
       createdBy := Patched(patch.createdBy, d.createdBy),
       updatedBy := Some(user))
  }

  /** PUT /api/billing/:id: the supplied fields replace the stored ones and
      `updatedBy` is set. The update bypasses the document hooks, so nothing
      is recomputed, and no stock is touched. */
  method UpdateBill(db: Store, id: nat, patch: BillPatch, user: UserId) returns (r: Result<nat, BillError>)
    modifies if id < |db.bills| then {db.bills[id]} else {}
    ensures id >= |db.bills| ==> r == Err(BillNotFound)
    ensures id < |db.bills| ==> r == Ok(id) && db.bills[id].Doc() == ApplyPatch(old(db.bills[id].Doc()), patch, user)
  {
    if id >= |db.bills| {
      return Err(BillNotFound);
    }
    var b := db.bills[id];
    var d := ApplyPatch(b.Doc(), patch, user);
    b.SetEntered(d);
    b.SetDerived(d);
    r := Ok(id);
  }

  /** DELETE /api/billing/:id: the bill is kept and marked cancelled, then
      saved, which runs the document hooks again. On a bill whose derived
      fields were consistent, the save changes nothing but the status and
      `updatedBy`; stock is never touched. */
  method CancelBill(db: Store, id: nat, user: UserId) returns (r: Result<nat, BillError>)
    modifies if id < |db.bills| then {db.bills[id]} else {}
    ensures id >= |db.bills| ==> r == Err(BillNotFound)
    ensures id < |db.bills| ==>
      var b := db.bills[id];
      && r == Ok(id)
      && b.status == Cancelled
      && b.updatedBy == Some(user)
      && b.customer == old(b.customer) && b.paymentMethod == old(b.paymentMethod)
      && b.amountPaid == old(b.amountPaid) && b.prescription == old(b.prescription)
      && b.notes == old(b.notes) && b.createdBy == old(b.createdBy)
      && b.items == DerivedItems(old(b.items))
      && b.TotalsDerived()
      && (old(b.items) == [] ==>
            && b.subtotal == old(b.subtotal) && b.totalDiscount == old(b.totalDiscount)
            && b.totalTax == old(b.totalTax) && b.grandTotal == old(b.grandTotal))
      && (old(b.TotalsDerived()) ==>
            && b.items == old(b.items) && b.subtotal == old(b.subtotal)
            && b.totalDiscount == old(b.totalDiscount) && b.totalTax == old(b.totalTax)
            && b.grandTotal == old(b.grandTotal) && b.changeGiven == old(b.changeGiven)
            && b.paymentStatus == old(b.paymentStatus))
  {
    if id >= |db.bills| {
      return Err(BillNotFound);
    }
    var b := db.bills[id];
    b.status := Cancelled;
    b.updatedBy := Some(user);
    b.Save();
    r := Ok(id);
  }
}
