/** The bill document and its two document hooks: the pre-validate hook that
    derives each line item's `totalPrice` and `taxAmount`, and the pre-save
    hook that derives the bill totals, the change given and the payment
    status. The hooks change the document in place, so the bill is a class. */
module BillModel {
  import opened Common
  import opened Money
  import opened MedicineModel
  import PrescriptionModel

  datatype PaymentMethod = Cash | Card | Upi | NetBanking | OtherMethod

  function PaymentMethodName(m: PaymentMethod): string
  {
    match m
    case Cash => "cash"
    case Card => "card"
    case Upi => "upi"
    case NetBanking => "net-banking"
    case OtherMethod => "other"
  }

  /** The payment-method enum: exactly the five names are accepted. */
  function ParsePaymentMethod(s: string): (r: Option<PaymentMethod>)
    ensures r.Some? ==> PaymentMethodName(r.value) == s
    ensures forall m: PaymentMethod :: PaymentMethodName(m) == s ==> r == Some(m)
  {
    if s == "cash" then Some(Cash)
    else if s == "card" then Some(Card)
    else if s == "upi" then Some(Upi)
    else if s == "net-banking" then Some(NetBanking)
    else if s == "other" then Some(OtherMethod)
    else None
  }

  datatype PaymentStatus = Pending | Paid | PartiallyPaid | Refunded

  datatype BillStatus = Draft | Finalized | Cancelled

  datatype Customer = Customer(
    name: string,
    phone: Option<string>,
    email: Option<string>,
    address: Option<string>,
    gstNumber: Option<string>)

  /** A line item. `medicine` is a weak reference (absent for a manual
      entry); `medicineName` and `batchNumber` are the literal text of the
      sale. `totalPrice` and `taxAmount` are derived and default to 0. */
  datatype LineItem = LineItem(
    medicine: Option<MedicineId>,
    medicineName: string,
    batchNumber: string,
    quantity: int,
    unitPrice: real,
    totalPrice: real,
    discount: real,
    taxRate: real,
    taxAmount: real)

  const DefaultTaxRate: real := 12.0

  /** `item.taxRate || 12`: a rate of 0 counts as absent. */
  function EffectiveTaxRate(rate: real): (r: real)
    ensures rate != 0.0 ==> r == rate
    ensures rate == 0.0 ==> r == DefaultTaxRate
  {
    if rate == 0.0 then DefaultTaxRate else rate
  }

  /** The tax on a line: the rate applied to the price after discount. */
  function TaxOn(totalPrice: real, discount: real, taxRate: real): (r: real)
    ensures IsCents(r)
  {
    Round2((totalPrice - discount) * EffectiveTaxRate(taxRate) / 100.0)
  }

  /** `Math.round(quantity * unitPrice * 100) / 100`. */
  function LineTotal(quantity: int, unitPrice: real): (r: real)
    ensures IsCents(r)
  {
    Round2(quantity as real * unitPrice)
  }

  /** The pre-validate hook applied to one item. An item whose quantity or
      unit price is 0 is skipped and keeps the derived values it had;
      otherwise both derived amounts are whole paise. */
  function WithDerivedAmounts(item: LineItem): (r: LineItem)
    ensures r.(totalPrice := item.totalPrice, taxAmount := item.taxAmount) == item
    ensures item.quantity == 0 || item.unitPrice == 0.0 ==> r == item
    ensures item.quantity != 0 && item.unitPrice != 0.0 ==>
      && r.totalPrice == LineTotal(item.quantity, item.unitPrice)
      && r.taxAmount == TaxOn(r.totalPrice, item.discount, item.taxRate)
      && IsCents(r.totalPrice) && IsCents(r.taxAmount)
  {
    if item.quantity != 0 && item.unitPrice != 0.0 then
      var totalPrice := LineTotal(item.quantity, item.unitPrice);
      item.(totalPrice := totalPrice, taxAmount := TaxOn(totalPrice, item.discount, item.taxRate))
    else
      item
  }

  function DerivedItems(items: seq<LineItem>): (r: seq<LineItem>)
    ensures |r| == |items|
    ensures forall k :: 0 <= k < |items| ==> r[k] == WithDerivedAmounts(items[k])
  {
    seq(|items|, k requires 0 <= k < |items| => WithDerivedAmounts(items[k]))
  }

  /** Deriving twice is deriving once: the derived values depend only on
      fields the hook does not change. */
  lemma DerivedItemsIdempotent(items: seq<LineItem>)
    ensures DerivedItems(DerivedItems(items)) == DerivedItems(items)
  {
    var once := DerivedItems(items);
    forall k | 0 <= k < |items|
      ensures WithDerivedAmounts(once[k]) == once[k]
    {
      WithDerivedAmountsIdempotent(items[k]);
    }
  }

  lemma WithDerivedAmountsIdempotent(it: LineItem)
    ensures WithDerivedAmounts(WithDerivedAmounts(it)) == WithDerivedAmounts(it)
  {
    var r := WithDerivedAmounts(it);
    if it.quantity != 0 && it.unitPrice != 0.0 {
      assert r.quantity == it.quantity && r.unitPrice == it.unitPrice;
      assert r.discount == it.discount && r.taxRate == it.taxRate;
    }
  }

  /** A line item of 10 at 5.50 with a discount of 5 at 12 % costs 55.00 and
      carries 6.00 of tax. */
  lemma LineItemExample()
    ensures var r := WithDerivedAmounts(LineItem(None, "Paracetamol", "B1", 10, 5.5, 0.0, 5.0, 12.0, 0.0));
      r.totalPrice == 55.0 && r.taxAmount == 6.0
  {
    assert (10.0 * 5.5 * 100.0 + 0.5).Floor == 5500;
    assert ((55.0 - 5.0) * 12.0 / 100.0 * 100.0 + 0.5).Floor == 600;
  }

  /** An explicit tax rate of 0 is charged at 12 %, and a discount larger
      than the price makes the tax negative. */
  lemma TaxRateQuirks()
    ensures WithDerivedAmounts(LineItem(None, "A", "B", 1, 100.0, 0.0, 0.0, 0.0, 0.0)).taxAmount == 12.0
    ensures WithDerivedAmounts(LineItem(None, "A", "B", 1, 10.0, 0.0, 20.0, 12.0, 0.0)).taxAmount == -1.2
  {
    assert (1.0 * 100.0 * 100.0 + 0.5).Floor == 10000;
    assert ((100.0 - 0.0) * 12.0 / 100.0 * 100.0 + 0.5).Floor == 1200;
    assert (1.0 * 10.0 * 100.0 + 0.5).Floor == 1000;
    assert ((10.0 - 20.0) * 12.0 / 100.0 * 100.0 + 0.5).Floor == -120;
  }

  datatype Amount = TotalPriceOf | DiscountOf | TaxAmountOf

  function AmountOf(item: LineItem, a: Amount): real
  {
    match a
    case TotalPriceOf => item.totalPrice
    case DiscountOf => item.discount
    case TaxAmountOf => item.taxAmount
  }

  /** `items.reduce((sum, item) => sum + <amount>, 0)`, a left fold. */
  function Sum(items: seq<LineItem>, a: Amount): real
  {
    if items == [] then 0.0 else Sum(items[..|items| - 1], a) + AmountOf(items[|items| - 1], a)
  }

  /** A sum of whole-paise amounts is whole paise. */
  lemma {:induction false} SumOfCents(items: seq<LineItem>, a: Amount)
    requires forall k :: 0 <= k < |items| ==> IsCents(AmountOf(items[k], a))
    ensures IsCents(Sum(items, a))
  {
    if items == [] {
      assert Sum(items, a) * 100.0 == 0.0;
    } else {
      SumOfCents(items[..|items| - 1], a);
      CentsAdd(Sum(items[..|items| - 1], a), AmountOf(items[|items| - 1], a));
    }
  }

  datatype Totals = Totals(subtotal: real, totalDiscount: real, totalTax: real, grandTotal: real)

  /** The bill-level totals the pre-save hook derives from non-empty items:
      each of the three sums rounded to the paisa, and the grand total
      computed from those rounded sums. */
  function TotalsOf(items: seq<LineItem>): (t: Totals)
    ensures IsCents(t.subtotal) && IsCents(t.totalDiscount) && IsCents(t.totalTax) && IsCents(t.grandTotal)
    ensures Sum(items, TotalPriceOf) - 0.005 < t.subtotal <= Sum(items, TotalPriceOf) + 0.005
    ensures Sum(items, DiscountOf) - 0.005 < t.totalDiscount <= Sum(items, DiscountOf) + 0.005
    ensures Sum(items, TaxAmountOf) - 0.005 < t.totalTax <= Sum(items, TaxAmountOf) + 0.005
    ensures t.grandTotal == Round2(t.subtotal - t.totalDiscount + t.totalTax)
  {
    var subtotal := Round2(Sum(items, TotalPriceOf));
    var totalDiscount := Round2(Sum(items, DiscountOf));
    var totalTax := Round2(Sum(items, TaxAmountOf));
    Totals(subtotal, totalDiscount, totalTax, Round2(subtotal - totalDiscount + totalTax))
  }

  /** When every item's derived values are whole paise (the defaults of 0
      and everything the pre-validate hook writes are), the bill's subtotal
      and total tax are the exact sums of the items: the outer rounding
      changes nothing. When the discounts are whole paise too, so is the
      total discount, and the grand total is the item sums combined and
      rounded once. */
  lemma SubtotalIsExactSum(items: seq<LineItem>)
    requires forall k :: 0 <= k < |items| ==> IsCents(items[k].totalPrice) && IsCents(items[k].taxAmount)
    ensures var d := DerivedItems(items);
      TotalsOf(d).subtotal == Sum(d, TotalPriceOf) && TotalsOf(d).totalTax == Sum(d, TaxAmountOf)
    ensures (forall k :: 0 <= k < |items| ==> IsCents(items[k].discount)) ==>
      var d := DerivedItems(items);
      && TotalsOf(d).totalDiscount == Sum(d, DiscountOf)
      && TotalsOf(d).grandTotal == Round2(Sum(d, TotalPriceOf) - Sum(d, DiscountOf) + Sum(d, TaxAmountOf))
  {
    var d := DerivedItems(items);
    assert forall k :: 0 <= k < |d| ==> IsCents(AmountOf(d[k], TotalPriceOf)) && IsCents(AmountOf(d[k], TaxAmountOf));
    SumOfCents(d, TotalPriceOf);
    SumOfCents(d, TaxAmountOf);
    Round2OfCents(Sum(d, TotalPriceOf));
    Round2OfCents(Sum(d, TaxAmountOf));
    if forall k :: 0 <= k < |items| ==> IsCents(items[k].discount) {
      assert forall k :: 0 <= k < |d| ==> IsCents(AmountOf(d[k], DiscountOf));
      SumOfCents(d, DiscountOf);
      Round2OfCents(Sum(d, DiscountOf));
    }
  }

  lemma CentsDifferenceExact(a: real, b: real)
    ensures IsCents(a) && IsCents(b) ==> Round2(a - b) == a - b
  {
    if IsCents(a) && IsCents(b) {
      CentsAdd(a, b);
      Round2OfCents(a - b);
    }
  }

  /** The change given: only for cash, only when more than the grand total
      was paid, and never negative. */
  function ChangeDue(paymentMethod: PaymentMethod, amountPaid: real, grandTotal: real): (r: real)
    ensures r >= 0.0
    ensures r > 0.0 ==> paymentMethod == Cash && amountPaid > grandTotal
    ensures paymentMethod != Cash || amountPaid <= grandTotal ==> r == 0.0
    ensures paymentMethod == Cash && amountPaid > grandTotal ==>
      IsCents(r) && amountPaid - grandTotal - 0.005 < r <= amountPaid - grandTotal + 0.005
    ensures paymentMethod == Cash && amountPaid > grandTotal && IsCents(amountPaid) && IsCents(grandTotal) ==>
      r == amountPaid - grandTotal
  {
    if paymentMethod == Cash && amountPaid > grandTotal then
      CentsDifferenceExact(amountPaid, grandTotal);
      Round2NonNegative(amountPaid - grandTotal);
      Round2(amountPaid - grandTotal)
    else
      0.0
  }

  /** The derived payment status; `Refunded` is never produced. */
  function PaymentStatusFor(amountPaid: real, grandTotal: real): (r: PaymentStatus)
    ensures r == Paid <==> amountPaid >= grandTotal
    ensures r == PartiallyPaid <==> 0.0 < amountPaid < grandTotal
    ensures r == Pending <==> amountPaid <= 0.0 && amountPaid < grandTotal
    ensures r != Refunded
  {
    if amountPaid >= grandTotal then Paid
    else if amountPaid > 0.0 then PartiallyPaid
    else Pending
  }

  /** Two items of 55.00 (discount 5) and 95.00 at 12 %, paid with 200 in
      cash: subtotal 150.00, discount 5.00, tax 17.40, grand total 162.40,
      change 37.60, status paid. */
  lemma BillExample()
    ensures var items := DerivedItems([
        LineItem(None, "Paracetamol", "B1", 10, 5.5, 0.0, 5.0, 12.0, 0.0),
        LineItem(None, "Cetirizine", "C7", 10, 9.5, 0.0, 0.0, 12.0, 0.0)]);
      var t := TotalsOf(items);
      && t == Totals(150.0, 5.0, 17.4, 162.4)
      && ChangeDue(Cash, 200.0, t.grandTotal) == 37.6
      && PaymentStatusFor(200.0, t.grandTotal) == Paid
  {
    var raw := [
        LineItem(None, "Paracetamol", "B1", 10, 5.5, 0.0, 5.0, 12.0, 0.0),
        LineItem(None, "Cetirizine", "C7", 10, 9.5, 0.0, 0.0, 12.0, 0.0)];
    var items := DerivedItems(raw);
    LineItemExample();
    assert (10.0 * 9.5 * 100.0 + 0.5).Floor == 9500;
    assert ((95.0 - 0.0) * 12.0 / 100.0 * 100.0 + 0.5).Floor == 1140;
    assert items[0].totalPrice == 55.0 && items[0].discount == 5.0 && items[0].taxAmount == 6.0;
    assert items[1].totalPrice == 95.0 && items[1].discount == 0.0 && items[1].taxAmount == 11.4;
    assert items[..1][..0] == [];
    assert items[..|items| - 1] == items[..1] && items[..1][0] == items[0];
    assert |items[..1]| == 1;
    assert Sum(items[..1], TotalPriceOf) == 55.0;
    assert Sum(items[..1], DiscountOf) == 5.0;
    assert Sum(items[..1], TaxAmountOf) == 6.0;
    assert Sum(items, TotalPriceOf) == 150.0;
    assert Sum(items, DiscountOf) == 5.0;
    assert Sum(items, TaxAmountOf) == 17.4;
    assert (150.0 * 100.0 + 0.5).Floor == 15000;
    assert (5.0 * 100.0 + 0.5).Floor == 500;
    assert (17.4 * 100.0 + 0.5).Floor == 1740;
    assert ((150.0 - 5.0 + 17.4) * 100.0 + 0.5).Floor == 16240;
    assert ((200.0 - 162.4) * 100.0 + 0.5).Floor == 3760;
  }

  /** The stored fields of a bill, as one value. */
  datatype BillDocument = BillDocument(
    customer: Customer,
    prescription: Option<PrescriptionModel.PrescriptionId>,
    items: seq<LineItem>,
    subtotal: real,
    totalDiscount: real,
    totalTax: real,
    grandTotal: real,
    paymentMethod: PaymentMethod,
    paymentStatus: PaymentStatus,
    amountPaid: real,
    changeGiven: real,
    notes: Option<string>,
    status: BillStatus,
    createdBy: UserId,
    updatedBy: Option<UserId>)

  class Bill {
    var customer: Customer
    var prescription: Option<PrescriptionModel.PrescriptionId>
    var items: seq<LineItem>
    var subtotal: real
    var totalDiscount: real
    var totalTax: real
    var grandTotal: real
    var paymentMethod: PaymentMethod
    var paymentStatus: PaymentStatus
    var amountPaid: real
    var changeGiven: real
    var notes: Option<string>
    var status: BillStatus
    var createdBy: UserId
    var updatedBy: Option<UserId>

    /** A new document with the schema defaults, before any hook has run. */
    constructor (customer: Customer, items: seq<LineItem>, paymentMethod: PaymentMethod, amountPaid: real,
                 prescription: Option<PrescriptionModel.PrescriptionId>, notes: Option<string>, createdBy: UserId)
      ensures this.customer == customer && this.items == items && this.paymentMethod == paymentMethod
      ensures this.amountPaid == amountPaid && this.prescription == prescription && this.notes == notes
      ensures this.createdBy == createdBy && updatedBy == None
      ensures subtotal == 0.0 && totalDiscount == 0.0 && totalTax == 0.0 && grandTotal == 0.0
      ensures paymentStatus == Pending && changeGiven == 0.0 && status == Finalized
    {
      this.customer := customer;
      this.items := items;
      this.paymentMethod := paymentMethod;
      this.amountPaid := amountPaid;
      this.prescription := prescription;
      this.notes := notes;
      this.createdBy := createdBy;
      updatedBy := None;
      subtotal, totalDiscount, totalTax, grandTotal := 0.0, 0.0, 0.0, 0.0;
      paymentStatus := Pending;
      changeGiven := 0.0;
      status := Finalized;
    }

    function Doc(): BillDocument
      reads this
    {
      BillDocument(customer, prescription, items, subtotal, totalDiscount, totalTax, grandTotal,
                   paymentMethod, paymentStatus, amountPaid, changeGiven, notes, status, createdBy, updatedBy)
    }

    /** Overwrites the fields a client enters with those of `d`. */
    method SetEntered(d: BillDocument)
      modifies this`customer, this`prescription, this`items, this`paymentMethod, this`amountPaid,
               this`notes, this`status, this`createdBy
      ensures customer == d.customer && prescription == d.prescription && items == d.items
      ensures paymentMethod == d.paymentMethod && amountPaid == d.amountPaid
      ensures notes == d.notes && status == d.status && createdBy == d.createdBy
    {
      customer, prescription, items, paymentMethod := d.customer, d.prescription, d.items, d.paymentMethod;
      amountPaid, notes, status, createdBy := d.amountPaid, d.notes, d.status, d.createdBy;
    }

    /** Overwrites the fields the hooks derive, and the updater, with those
        of `d`, without deriving anything. */
    method SetDerived(d: BillDocument)
      modifies this`subtotal, this`totalDiscount, this`totalTax, this`grandTotal, this`paymentStatus,
               this`changeGiven, this`updatedBy
      ensures subtotal == d.subtotal && totalDiscount == d.totalDiscount && totalTax == d.totalTax
      ensures grandTotal == d.grandTotal && paymentStatus == d.paymentStatus && changeGiven == d.changeGiven
      ensures updatedBy == d.updatedBy
    {
      subtotal, totalDiscount, totalTax, grandTotal := d.subtotal, d.totalDiscount, d.totalTax, d.grandTotal;
      paymentStatus, changeGiven, updatedBy := d.paymentStatus, d.changeGiven, d.updatedBy;
    }

    /** Every derived field agrees with the fields it is derived from. */
    ghost predicate TotalsDerived()
      reads this
    {
      && items == DerivedItems(items)
      && (items != [] ==> Totals(subtotal, totalDiscount, totalTax, grandTotal) == TotalsOf(items))
      && changeGiven == ChangeDue(paymentMethod, amountPaid, grandTotal)
      && paymentStatus == PaymentStatusFor(amountPaid, grandTotal)
    }

    /** The pre-validate hook: each item in turn gets its derived amounts. */
    method PreValidate()
      modifies this`items
      ensures items == DerivedItems(old(items))
    {
      var i := 0;
      while i < |items|
        invariant 0 <= i <= |items| == |old(items)|
        invariant forall k :: 0 <= k < i ==> items[k] == WithDerivedAmounts(old(items)[k])
        invariant forall k :: i <= k < |items| ==> items[k] == old(items)[k]
      {
        items := items[i := WithDerivedAmounts(items[i])];
        i := i + 1;
      }
    }

    /** The pre-save hook: totals (only when there are items), then the
        change given, then the payment status. */
    method PreSave()
      modifies this`subtotal, this`totalDiscount, this`totalTax, this`grandTotal, this`changeGiven, this`paymentStatus
      ensures items != [] ==> Totals(subtotal, totalDiscount, totalTax, grandTotal) == TotalsOf(items)
      ensures items == [] ==> && subtotal == old(subtotal) && totalDiscount == old(totalDiscount)
                              && totalTax == old(totalTax) && grandTotal == old(grandTotal)
      ensures changeGiven == ChangeDue(paymentMethod, amountPaid, grandTotal)
      ensures paymentStatus == PaymentStatusFor(amountPaid, grandTotal)
    {
      if items != [] {
        subtotal := Round2(Sum(items, TotalPriceOf));
        totalDiscount := Round2(Sum(items, DiscountOf));
        totalTax := Round2(Sum(items, TaxAmountOf));
        grandTotal := Round2(subtotal - totalDiscount + totalTax);
      }
      if paymentMethod == Cash && amountPaid > grandTotal {
        changeGiven := Round2(amountPaid - grandTotal);
      } else {
        changeGiven := 0.0;
      }
      if amountPaid >= grandTotal {
        paymentStatus := Paid;
      } else if amountPaid > 0.0 {
        paymentStatus := PartiallyPaid;
      } else {
        paymentStatus := Pending;
      }
    }

    /** `save()`: the pre-validate hook, then the pre-save hook. Afterwards
        every derived field is consistent; on a bill that already was, the
        save changes nothing. */
    method Save()
      modifies this`items, this`subtotal, this`totalDiscount, this`totalTax, this`grandTotal,
               this`changeGiven, this`paymentStatus
      ensures items == DerivedItems(old(items))
      ensures TotalsDerived()
      ensures old(items) == [] ==>
        && subtotal == old(subtotal) && totalDiscount == old(totalDiscount)
        && totalTax == old(totalTax) && grandTotal == old(grandTotal)
      ensures old(TotalsDerived()) ==>
        && items == old(items) && subtotal == old(subtotal) && totalDiscount == old(totalDiscount)
        && totalTax == old(totalTax) && grandTotal == old(grandTotal)
        && changeGiven == old(changeGiven) && paymentStatus == old(paymentStatus)
    {
      PreValidate();
      PreSave();
      DerivedItemsIdempotent(old(items));
    }

    /** The `amountDue` virtual. */
    function AmountDue(): (r: real)
      reads this
      ensures r >= 0.0
      ensures r == 0.0 <==> IsFullyPaid()
      ensures r > 0.0 ==> r == grandTotal - amountPaid
    {
      if grandTotal - amountPaid > 0.0 then grandTotal - amountPaid else 0.0
    }

    /** The `isFullyPaid` instance method. */
    predicate IsFullyPaid()
      reads this
    {
      amountPaid >= grandTotal
    }
  }

  /** On a saved bill, "fully paid" and "nothing due" both mean the status
      is `paid`. */
  lemma FullyPaidMeansPaid(b: Bill)
    requires b.TotalsDerived()
    ensures b.IsFullyPaid() <==> b.paymentStatus == Paid
    ensures b.AmountDue() == 0.0 <==> b.paymentStatus == Paid
  {
  }
}
