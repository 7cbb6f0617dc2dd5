/** The document store the handlers work on: the three collections, held in
    insertion order, and the `findOne` queries the handlers issue against
    the medicine collection. A document's identifier is its position in its
    collection; medicines and bills are never removed. */
module Database {
  import opened Common
  import opened Text
  import opened MedicineModel
  import PrescriptionModel
  import BillModel

  /** The `findOne` filters used on medicines. */
  datatype MedicineQuery =
    | ActiveByNameOrGeneric(text: string, batch: string)  // bill creation
    | ActiveByName(text: string)                          // prescription linkage
    | ByBatch(batch: string)                              // duplicate batch on create
    | ByBatchExcept(batch: string, except: MedicineId)    // duplicate batch on update

  /** Whether the medicine at position `i` satisfies the filter. A regular
      expression built from the text with flag `i` is read as
      case-insensitive containment. */
  predicate Matches(ms: seq<Medicine>, i: nat, q: MedicineQuery)
    requires i < |ms|
  {
    var m := ms[i];
    match q
    case ActiveByNameOrGeneric(text, batch) =>
      && m.isActive
      && m.batchNumber == batch
      && (ContainsIgnoreCase(m.name, text) || (m.genericName.Some? && ContainsIgnoreCase(m.genericName.value, text)))
    case ActiveByName(text) =>
      m.isActive && ContainsIgnoreCase(m.name, text)
    case ByBatch(batch) =>
      m.batchNumber == batch
    case ByBatchExcept(batch, except) =>
      m.batchNumber == batch && i != except
  }

  /** `findOne` from position `from` on: the first match in insertion order. */
  function FindFrom(ms: seq<Medicine>, q: MedicineQuery, from: nat): (r: Option<MedicineId>)
    requires from <= |ms|
    ensures r.Some? ==> from <= r.value < |ms| && Matches(ms, r.value, q)
    ensures r.Some? ==> forall j :: from <= j < r.value ==> !Matches(ms, j, q)
    ensures r.None? ==> forall j :: from <= j < |ms| ==> !Matches(ms, j, q)
    decreases |ms| - from
  {
    if from == |ms| then None
    else if Matches(ms, from, q) then Some(from)
    else FindFrom(ms, q, from + 1)
  }

  /** `findOne(filter)`: the first matching medicine, or none. */
  function FindFirst(ms: seq<Medicine>, q: MedicineQuery): (r: Option<MedicineId>)
    ensures r.Some? ==> r.value < |ms| && Matches(ms, r.value, q)
    ensures r.Some? ==> forall j :: 0 <= j < r.value ==> !Matches(ms, j, q)
    ensures r.None? <==> forall j :: 0 <= j < |ms| ==> !Matches(ms, j, q)
  {
    FindFrom(ms, q, 0)
  }

  /** Two inventories that agree on every field a query looks at. */
  predicate SameCatalogue(a: seq<Medicine>, b: seq<Medicine>)
  {
    && |a| == |b|
    && forall i :: 0 <= i < |a| ==>
         && a[i].isActive == b[i].isActive
         && a[i].batchNumber == b[i].batchNumber
         && a[i].name == b[i].name
         && a[i].genericName == b[i].genericName
  }

  /** Queries do not look at stock levels or audit fields, so changing those
      never changes which medicine a query finds. */
  lemma FindFirstIgnoresStock(a: seq<Medicine>, b: seq<Medicine>, q: MedicineQuery)
    requires SameCatalogue(a, b)
    ensures FindFirst(a, q) == FindFirst(b, q)
  {
    assert forall i :: 0 <= i < |a| ==> (Matches(a, i, q) <==> Matches(b, i, q));
  }

  /** A duplicate-batch lookup finds something exactly when some medicine,
      active or not, already holds the batch. */
  lemma ByBatchFinds(ms: seq<Medicine>, batch: string)
    ensures FindFirst(ms, ByBatch(batch)).Some? <==> exists i :: 0 <= i < |ms| && ms[i].batchNumber == batch
  {
    if FindFirst(ms, ByBatch(batch)).None? {
      forall i | 0 <= i < |ms|
        ensures ms[i].batchNumber != batch
      {
        assert !Matches(ms, i, ByBatch(batch));
      }
    }
  }

  lemma ByBatchExceptFinds(ms: seq<Medicine>, batch: string, except: MedicineId)
    ensures FindFirst(ms, ByBatchExcept(batch, except)).Some? <==>
      exists i :: 0 <= i < |ms| && i != except && ms[i].batchNumber == batch
  {
    if FindFirst(ms, ByBatchExcept(batch, except)).None? {
      forall i | 0 <= i < |ms| && i != except
        ensures ms[i].batchNumber != batch
      {
        assert !Matches(ms, i, ByBatchExcept(batch, except));
      }
    }
  }

  /** What the schemas and the unique batch index guarantee of the stored
      medicines. */
  predicate ValidInventory(ms: seq<Medicine>)
  {
    (forall i :: 0 <= i < |ms| ==> WellFormed(ms[i])) && UniqueBatches(ms)
  }

  /** What the schema guarantees of the stored prescriptions, and the order
      their identifiers follow. */
  predicate ValidPrescriptions(ps: seq<PrescriptionModel.Prescription>)
  {
    (forall i :: 0 <= i < |ps| ==> PrescriptionModel.WellFormed(ps[i])) && PrescriptionModel.IdsByCreation(ps)
  }

  class Store {
    var medicines: seq<Medicine>
    var prescriptions: seq<PrescriptionModel.Prescription>
    var bills: seq<BillModel.Bill>

    ghost predicate Valid()
      reads this
    {
      ValidInventory(medicines) && ValidPrescriptions(prescriptions)
    }

    constructor ()
      ensures medicines == [] && prescriptions == [] && bills == []
      ensures Valid()
    {
      medicines, prescriptions, bills := [], [], [];
    }
  }
}
