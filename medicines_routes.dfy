/** The medicine handlers: create and update (request validation and the
    duplicate-batch checks), soft delete, and the stock adjustment PATCH with
    its `add`, `subtract` and `set` operations. */
module MedicineRoutes {
  import opened Common
  import opened MedicineModel
  import opened Database

  datatype StockRequest = StockRequest(current: int, minimum: Option<int>, maximum: Option<int>)

  /** A create or update request body. */
  datatype MedicineRequest = MedicineRequest(
    name: string,
    genericName: Option<string>,
    brand: Option<string>,
    category: string,
    dosage: string,
    strength: string,
    manufacturer: string,
    batchNumber: string,
    manufacturingDate: Timestamp,
    expiryDate: Timestamp,
    stock: StockRequest,
    pricing: Pricing)

  datatype MedicineError =
    | InvalidRequest
    | DuplicateBatch
    | MedicineNotFound
    | InvalidOperation
    | InvalidQuantity
    | InsufficientStock
    | UpdateValidationFailed   // the validators run by findByIdAndUpdate

  function ErrorMessage(e: MedicineError): string
  {
    match e
    case InvalidRequest => "Validation error"
    case DuplicateBatch => "Medicine with this batch number already exists"
    case MedicineNotFound => "Medicine not found"
    case InvalidOperation => "Invalid operation. Use \"add\", \"subtract\", or \"set\""
    case InvalidQuantity => "Quantity must be a positive number"
    case InsufficientStock => "Insufficient stock"
    case UpdateValidationFailed => "Server error updating medicine"
  }

  /** An optional string of at most `max` characters; present means non-empty. */
  predicate OptionalBounded(s: Option<string>, max: nat)
  {
    s.Some? ==> 1 <= |s.value| <= max
  }

  /** The request schema shared by create and update. */
  predicate ValidMedicineRequest(r: MedicineRequest)
  {
    && 2 <= |r.name| <= 200
    && OptionalBounded(r.genericName, 200)
    && OptionalBounded(r.brand, 100)
    && ParseCategory(r.category).Some?
    && r.dosage != "" && r.strength != "" && r.manufacturer != "" && r.batchNumber != ""
    && r.expiryDate > r.manufacturingDate
    && r.stock.current >= 0
    && (r.stock.minimum.Some? ==> r.stock.minimum.value >= 0)
    && (r.stock.maximum.Some? ==> r.stock.maximum.value >= 1)
    && PricingInBounds(r.pricing)
  }

  /** The stock sub-document after the request's defaults are applied: a
      supplied minimum or maximum is kept, an absent one becomes 10 or 1000. */
  function ResolvedStock(s: StockRequest): (l: StockLevels)
    ensures l.current == s.current
    ensures s.minimum.Some? ==> l.minimum == s.minimum.value
    ensures s.minimum.None? ==> l.minimum == DefaultMinimum
    ensures s.maximum.Some? ==> l.maximum == s.maximum.value
    ensures s.maximum.None? ==> l.maximum == DefaultMaximum
  {
    StockLevels(s.current,
                if s.minimum.Some? then s.minimum.value else DefaultMinimum,
                if s.maximum.Some? then s.maximum.value else DefaultMaximum)
  }

  /** The document a valid create request stores: every schema bound holds. */
  function NewMedicine(r: MedicineRequest, user: UserId): (m: Medicine)
    requires ValidMedicineRequest(r)
    ensures WellFormed(m)
    ensures m.isActive && m.createdBy == user && m.updatedBy == None
    ensures m.name == r.name && m.batchNumber == r.batchNumber && CategoryName(m.category) == r.category
    ensures m.genericName == r.genericName && m.brand == r.brand
    ensures m.dosage == r.dosage && m.strength == r.strength && m.manufacturer == r.manufacturer
    ensures m.manufacturingDate == r.manufacturingDate && m.expiryDate == r.expiryDate
    ensures m.stock == ResolvedStock(r.stock) && m.pricing == r.pricing
  {
    Medicine(r.name, r.genericName, r.brand, ParseCategory(r.category).value, r.dosage, r.strength,
             r.manufacturer, r.batchNumber, r.manufacturingDate, r.expiryDate, ResolvedStock(r.stock),
             r.pricing, true, user, None)
  }

  /** The stored document after a valid update: the request's fields replace
      the old ones, with the same defaults as on create (so an absent stock
      minimum or maximum is reset to 10 or 1000), except that an absent
      optional name keeps the old value and `isActive` and `createdBy` are
      kept. */
  function UpdatedMedicine(m: Medicine, r: MedicineRequest, user: UserId): (u: Medicine)
    requires ValidMedicineRequest(r)
    ensures WellFormed(u)
    ensures u.isActive == m.isActive && u.createdBy == m.createdBy && u.updatedBy == Some(user)
    ensures u.batchNumber == r.batchNumber && u.name == r.name && CategoryName(u.category) == r.category
    ensures u.dosage == r.dosage && u.strength == r.strength && u.manufacturer == r.manufacturer
    ensures u.manufacturingDate == r.manufacturingDate && u.expiryDate == r.expiryDate
    ensures u.stock == ResolvedStock(r.stock) && u.pricing == r.pricing
    ensures u.genericName == (if r.genericName.Some? then r.genericName else m.genericName)
    ensures u.brand == (if r.brand.Some? then r.brand else m.brand)
    ensures u == NewMedicine(r, user).(genericName := u.genericName, brand := u.brand,
                                       isActive := m.isActive, createdBy := m.createdBy, updatedBy := Some(user))
  {
    Medicine(r.name,
             if r.genericName.Some? then r.genericName else m.genericName,
             if r.brand.Some? then r.brand else m.brand,
             ParseCategory(r.category).value, r.dosage, r.strength, r.manufacturer, r.batchNumber,
             r.manufacturingDate, r.expiryDate, ResolvedStock(r.stock), r.pricing,
             m.isActive, m.createdBy, Some(user))
  }

  predicate BatchTaken(ms: seq<Medicine>, batch: string)
  {
    exists i :: 0 <= i < |ms| && ms[i].batchNumber == batch
  }

  predicate BatchTakenByOther(ms: seq<Medicine>, batch: string, id: MedicineId)
  {
    exists i :: 0 <= i < |ms| && i != id && ms[i].batchNumber == batch
  }

  /** POST /api/medicines. */
  method CreateMedicine(db: Store, req: MedicineRequest, user: UserId) returns (r: Result<MedicineId, MedicineError>)
    requires db.Valid()
    modifies db`medicines
    ensures db.Valid()
    ensures !ValidMedicineRequest(req) ==> r == Err(InvalidRequest) && db.medicines == old(db.medicines)
    ensures ValidMedicineRequest(req) && BatchTaken(old(db.medicines), req.batchNumber) ==>
      r == Err(DuplicateBatch) && db.medicines == old(db.medicines)
    ensures ValidMedicineRequest(req) && !BatchTaken(old(db.medicines), req.batchNumber) ==>
      r == Ok(|old(db.medicines)|) && db.medicines == old(db.medicines) + [NewMedicine(req, user)]
  {
    if !ValidMedicineRequest(req) {
      return Err(InvalidRequest);
    }
    ByBatchFinds(db.medicines, req.batchNumber);
    if FindFirst(db.medicines, ByBatch(req.batchNumber)).Some? {
      return Err(DuplicateBatch);
    }
    r := Ok(|db.medicines|);
    db.medicines := db.medicines + [NewMedicine(req, user)];
  }

  /** PUT /api/medicines/:id, with the expiry validator corrected to compare
      against the manufacturing date being written. As written, every update
      that reaches the validators is refused (`UpdateOutcomeAsWritten`,
      `UpdateAlwaysFailsAsWritten`). The duplicate check runs only when the
      batch number changes, and only other medicines count. */
  method UpdateMedicine(db: Store, id: MedicineId, req: MedicineRequest, user: UserId) returns (r: Result<MedicineId, MedicineError>)
    requires db.Valid()
    modifies db`medicines
    ensures db.Valid()
    ensures !ValidMedicineRequest(req) ==> r == Err(InvalidRequest) && db.medicines == old(db.medicines)
    ensures ValidMedicineRequest(req) && id >= |old(db.medicines)| ==>
      r == Err(MedicineNotFound) && db.medicines == old(db.medicines)
    ensures ValidMedicineRequest(req) && id < |old(db.medicines)| ==>
      var conflict := req.batchNumber != old(db.medicines)[id].batchNumber
                      && BatchTakenByOther(old(db.medicines), req.batchNumber, id);
      && (conflict ==> r == Err(DuplicateBatch) && db.medicines == old(db.medicines))
      && (!conflict ==>
            && r == Ok(id)
            && db.medicines == old(db.medicines)[id := UpdatedMedicine(old(db.medicines)[id], req, user)])
  {
    if !ValidMedicineRequest(req) {
      return Err(InvalidRequest);
    }
    if id >= |db.medicines| {
      return Err(MedicineNotFound);
    }
    var m := db.medicines[id];
    if req.batchNumber != m.batchNumber {
      ByBatchExceptFinds(db.medicines, req.batchNumber, id);
      if FindFirst(db.medicines, ByBatchExcept(req.batchNumber, id)).Some? {
        return Err(DuplicateBatch);
      }
    }
    var ms := db.medicines[id := UpdatedMedicine(m, req, user)];
    assert forall i :: 0 <= i < |ms| && i != id ==> ms[i] == db.medicines[i];
    db.medicines := ms;
    r := Ok(id);
  }

  /** The expiry validator `expiryDate > manufacturingDate`, given the
      manufacturing date it can see. Run as an update validator it sees no
      document; the comparison is then with an undefined value, which is
      false. */
  function ExpiryValidator(expiryDate: Timestamp, visibleManufacturingDate: Option<Timestamp>): (ok: bool)
    ensures visibleManufacturingDate.None? ==> !ok
    ensures visibleManufacturingDate.Some? ==> (ok <==> expiryDate > visibleManufacturingDate.value)
  {
    visibleManufacturingDate.Some? && expiryDate > visibleManufacturingDate.value
  }

  /** The PUT handler as written: the same checks as `UpdateMedicine`, then
      `findByIdAndUpdate` with update validators, where the expiry validator
      sees no document. */
  function UpdateOutcomeAsWritten(ms: seq<Medicine>, id: MedicineId, req: MedicineRequest): Result<MedicineId, MedicineError>
  {
    if !ValidMedicineRequest(req) then Err(InvalidRequest)
    else if id >= |ms| then Err(MedicineNotFound)
    else if req.batchNumber != ms[id].batchNumber && BatchTakenByOther(ms, req.batchNumber, id) then Err(DuplicateBatch)
    else if !ExpiryValidator(req.expiryDate, None) then Err(UpdateValidationFailed)
    else Ok(id)
  }

  /** As written, every update that passes the handler's own checks is
      refused by the expiry validator, the expiry date being required. */
  lemma UpdateAlwaysFailsAsWritten(ms: seq<Medicine>, id: MedicineId, req: MedicineRequest)
    requires ValidMedicineRequest(req) && id < |ms|
    requires !(req.batchNumber != ms[id].batchNumber && BatchTakenByOther(ms, req.batchNumber, id))
    ensures UpdateOutcomeAsWritten(ms, id, req) == Err(UpdateValidationFailed)
  {
  }

  /** With the validator comparing against the manufacturing date being
      written, it accepts every valid request body, so the update goes
      through as `UpdateMedicine` states. */
  lemma CorrectedExpiryValidatorAccepts(req: MedicineRequest)
    requires ValidMedicineRequest(req)
    ensures ExpiryValidator(req.expiryDate, Some(req.manufacturingDate))
  {
  }

  /** DELETE /api/medicines/:id: the record stays, marked inactive. */
  method DeleteMedicine(db: Store, id: MedicineId, user: UserId) returns (r: Result<MedicineId, MedicineError>)
    requires db.Valid()
    modifies db`medicines
    ensures db.Valid()
    ensures |db.medicines| == |old(db.medicines)|
    ensures id >= |old(db.medicines)| ==> r == Err(MedicineNotFound) && db.medicines == old(db.medicines)
    ensures id < |old(db.medicines)| ==>
      r == Ok(id) && db.medicines == old(db.medicines)[id := old(db.medicines)[id].(isActive := false, updatedBy := Some(user))]
  {
    if id >= |db.medicines| {
      return Err(MedicineNotFound);
    }
    var m := db.medicines[id];
    var ms := db.medicines[id := m.(isActive := false, updatedBy := Some(user))];
    assert forall i :: 0 <= i < |ms| ==> ms[i].batchNumber == db.medicines[i].batchNumber;
    db.medicines := ms;
    r := Ok(id);
  }

  /** A soft-deleted medicine is never found again by the lookups bill
      creation and prescription linkage use, though its batch stays taken. */
  lemma DeletedIsNotMatched(ms: seq<Medicine>, id: MedicineId, user: UserId, q: MedicineQuery)
    requires id < |ms|
    requires q.ActiveByNameOrGeneric? || q.ActiveByName?
    ensures var ms' := ms[id := ms[id].(isActive := false, updatedBy := Some(user))];
      && FindFirst(ms', q) != Some(id)
      && BatchTaken(ms', ms[id].batchNumber)
  {
    var ms' := ms[id := ms[id].(isActive := false, updatedBy := Some(user))];
    assert ms'[id].batchNumber == ms[id].batchNumber;
  }

  datatype StockOperation = Add | Subtract | Set

  function ParseStockOperation(s: string): (r: Option<StockOperation>)
    ensures r.Some? <==> s in {"add", "subtract", "set"}
    ensures r == Some(Add) <==> s == "add"
    ensures r == Some(Subtract) <==> s == "subtract"
    ensures r == Some(Set) <==> s == "set"
  {
    if s == "add" then Some(Add)
    else if s == "subtract" then Some(Subtract)
    else if s == "set" then Some(Set)
    else None
  }

  /** `!quantity || quantity < 0` rejects a missing, zero or negative quantity. */
  predicate QuantityAccepted(quantity: Option<int>)
  {
    quantity.Some? && quantity.value != 0 && !(quantity.value < 0)
  }

  /** The new stock level an operation computes, or the refusal. Only a
      subtraction below zero is refused; from a non-negative level with a
      positive quantity the result is never negative. */
  function AdjustedStock(op: StockOperation, current: int, quantity: int): (r: Result<int, MedicineError>)
    ensures r.Err? <==> op == Subtract && current < quantity
    ensures r.Err? ==> r.error == InsufficientStock
    ensures r.Ok? && op == Add ==> r.value - current == quantity
    ensures r.Ok? && op == Subtract ==> current - r.value == quantity
    ensures r.Ok? && op == Set ==> r.value == quantity
    ensures r.Ok? && current >= 0 && quantity > 0 ==> r.value >= 0
  {
    match op
    case Add => Ok(current + quantity)
    case Subtract => if current - quantity < 0 then Err(InsufficientStock) else Ok(current - quantity)
    case Set => Ok(quantity)
  }

  /** Since a quantity must be positive, `set` can never empty a medicine. */
  lemma SetCannotReachZero(current: int, quantity: Option<int>)
    requires QuantityAccepted(quantity)
    ensures AdjustedStock(Set, current, quantity.value) != Ok(0)
  {
  }

  /** PATCH /api/medicines/:id/stock. The operation is checked first, then
      the quantity, then the id. A successful adjustment changes only the
      current stock level and `updatedBy`. */
  method AdjustStock(db: Store, id: MedicineId, operation: string, quantity: Option<int>, user: UserId)
    returns (r: Result<int, MedicineError>)
    requires db.Valid()
    modifies db`medicines
    ensures db.Valid()
    ensures r.Err? ==> db.medicines == old(db.medicines)
    ensures ParseStockOperation(operation).None? ==> r == Err(InvalidOperation)
    ensures ParseStockOperation(operation).Some? && !QuantityAccepted(quantity) ==> r == Err(InvalidQuantity)
    ensures ParseStockOperation(operation).Some? && QuantityAccepted(quantity) && id >= |old(db.medicines)| ==>
      r == Err(MedicineNotFound)
    ensures ParseStockOperation(operation).Some? && QuantityAccepted(quantity) && id < |old(db.medicines)| ==>
      var m := old(db.medicines)[id];
      && r == AdjustedStock(ParseStockOperation(operation).value, m.stock.current, quantity.value)
      && (r.Ok? ==> db.medicines == old(db.medicines)[id := m.(stock := m.stock.(current := r.value), updatedBy := Some(user))])
  {
    var op := ParseStockOperation(operation);
    if op.None? {
      return Err(InvalidOperation);
    }
    if quantity.None? || quantity.value == 0 || quantity.value < 0 {
      return Err(InvalidQuantity);
    }
    if id >= |db.medicines| {
      return Err(MedicineNotFound);
    }
    var m := db.medicines[id];
    var newStock := m.stock.current;
    match op.value {
      case Add =>
        newStock := newStock + quantity.value;
      case Subtract =>
        newStock := newStock - quantity.value;
        if newStock < 0 {
          return Err(InsufficientStock);
        }
      case Set =>
        newStock := quantity.value;
    }
    var ms := db.medicines[id := m.(stock := m.stock.(current := newStock), updatedBy := Some(user))];
    assert forall i :: 0 <= i < |ms| ==> ms[i].batchNumber == db.medicines[i].batchNumber;
    db.medicines := ms;
    r := Ok(newStock);
  }
}
