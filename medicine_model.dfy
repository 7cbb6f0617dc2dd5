/** The medicine (stock record) document: its fields, the schema bounds and
    cross-field checks it must satisfy to be saved, and the two classifiers
    computed from it (`stockStatus`, `expiryStatus`). */
module MedicineModel {
  import opened Common

  /** A medicine's position in the medicine collection. */
  type MedicineId = nat

  datatype Category = Tablet | Syrup | Injection | Cream | Capsule | Drops | Powder | OtherCategory

  function CategoryName(c: Category): string
  {
    match c
    case Tablet => "tablet"
    case Syrup => "syrup"
    case Injection => "injection"
    case Cream => "cream"
    case Capsule => "capsule"
    case Drops => "drops"
    case Powder => "powder"
    case OtherCategory => "other"
  }

  /** The category enum: exactly the eight names above are accepted. */
  function ParseCategory(s: string): (r: Option<Category>)
    ensures r.Some? ==> CategoryName(r.value) == s
    ensures forall c: Category :: CategoryName(c) == s ==> r == Some(c)
  {
    if s == "tablet" then Some(Tablet)
    else if s == "syrup" then Some(Syrup)
    else if s == "injection" then Some(Injection)
    else if s == "cream" then Some(Cream)
    else if s == "capsule" then Some(Capsule)
    else if s == "drops" then Some(Drops)
    else if s == "powder" then Some(Powder)
    else if s == "other" then Some(OtherCategory)
    else None
  }

  datatype StockLevels = StockLevels(current: int, minimum: int, maximum: int)

  const DefaultCurrent: int := 0
  const DefaultMinimum: int := 10
  const DefaultMaximum: int := 1000

  datatype Pricing = Pricing(purchasePrice: real, sellingPrice: real, mrp: real)

  datatype Medicine = Medicine(
    name: string,
    genericName: Option<string>,
    brand: Option<string>,
    category: Category,
    dosage: string,
    strength: string,
    manufacturer: string,
    batchNumber: string,
    manufacturingDate: Timestamp,
    expiryDate: Timestamp,
    stock: StockLevels,
    pricing: Pricing,
    isActive: bool,
    createdBy: UserId,
    updatedBy: Option<UserId>)

  /** The `min` validators on the stock sub-document. */
  predicate StockInBounds(s: StockLevels)
  {
    s.current >= 0 && s.minimum >= 0 && s.maximum >= 1
  }

  predicate PricingInBounds(p: Pricing)
  {
    p.purchasePrice >= 0.0 && p.sellingPrice >= 0.0 && p.mrp >= 0.0
  }

  /** What the schema demands of a document before it is saved: the required
      strings are present, the expiry date lies strictly after the
      manufacturing date, and the numeric bounds hold. */
  predicate WellFormed(m: Medicine)
  {
    && m.name != ""
    && m.dosage != ""
    && m.strength != ""
    && m.manufacturer != ""
    && m.batchNumber != ""
    && m.expiryDate > m.manufacturingDate
    && StockInBounds(m.stock)
    && PricingInBounds(m.pricing)
  }

  /** The unique index on `batchNumber`, over the whole collection. */
  predicate UniqueBatches(ms: seq<Medicine>)
  {
    forall i, j :: 0 <= i < j < |ms| ==> ms[i].batchNumber != ms[j].batchNumber
  }

  datatype StockStatus = OutOfStock | LowStock | InStock

  /** The `stockStatus` virtual. */
  function StockStatusOf(s: StockLevels): (r: StockStatus)
    ensures r == OutOfStock <==> s.current <= 0
    ensures r == LowStock <==> 0 < s.current <= s.minimum
    ensures r == InStock <==> 0 < s.current && s.minimum < s.current
  {
    if s.current <= 0 then OutOfStock
    else if s.current <= s.minimum then LowStock
    else InStock
  }

  datatype ExpiryStatus = Expired | ExpiringSoon | Valid

  /** The `expiryStatus` virtual. `now` is the current time and `horizon` the
      same time six calendar months later, both supplied by the caller. */
  function ExpiryStatusOf(expiryDate: Timestamp, now: Timestamp, horizon: Timestamp): (r: ExpiryStatus)
    ensures r == Expired <==> expiryDate <= now
    ensures r == ExpiringSoon <==> now < expiryDate <= horizon
    ensures r == Valid <==> now < expiryDate && horizon < expiryDate
  {
    if expiryDate <= now then Expired
    else if expiryDate <= horizon then ExpiringSoon
    else Valid
  }

  /** The condition under which the pre-save hook logs a low-stock warning.
      The hook only logs; it changes no field of the document. */
  predicate LowStockAlert(s: StockLevels)
  {
    s.current < s.minimum
  }

  /** A warning is only ever logged for a medicine that is not in stock, but
      a medicine sitting exactly at its minimum is classed low-stock without
      a warning: the hook uses `<` where the classifier uses `<=`. */
  lemma AlertAgreesWithStatus(s: StockLevels)
    ensures LowStockAlert(s) ==> StockStatusOf(s) != InStock
    ensures 0 < s.current == s.minimum ==> StockStatusOf(s) == LowStock && !LowStockAlert(s)
  {
  }
}
