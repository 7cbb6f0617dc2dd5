/** What the item loop of bill creation guarantees about the inventory and
    the lines it builds, proved about `ProcessItems` for every inventory and
    every list of items. */
module BillingProperties {
  import opened Common
  import opened Text
  import opened MedicineModel
  import opened BillModel
  import opened Database
  import opened BillingRoutes

  /** The units of medicine `j` that the lines took from stock. */
  function DispensedFrom(lines: seq<LineItem>, j: MedicineId): int
  {
    if lines == [] then 0
    else (if lines[0].medicine == Some(j) then lines[0].quantity else 0) + DispensedFrom(lines[1..], j)
  }

  lemma DispensedFromCons(l: LineItem, lines: seq<LineItem>, j: MedicineId)
    ensures DispensedFrom([l] + lines, j) == (if l.medicine == Some(j) then l.quantity else 0) + DispensedFrom(lines, j)
  {
    assert ([l] + lines)[1..] == lines;
  }

  /** `b` is `a` with at most its current stock level and `updatedBy` changed. */
  predicate OnlyStockChanged(a: Medicine, b: Medicine)
  {
    b == a.(stock := a.stock.(current := b.stock.current), updatedBy := b.updatedBy)
  }

  lemma OnlyStockChangedCatalogue(a: seq<Medicine>, b: seq<Medicine>)
    requires |a| == |b| && forall j :: 0 <= j < |a| ==> OnlyStockChanged(a[j], b[j])
    ensures SameCatalogue(a, b)
  {
  }

  lemma DispenseKeepsCatalogue(inv: seq<Medicine>, f: nat, quantity: int, user: UserId)
    requires f < |inv|
    ensures SameCatalogue(inv, inv[f := Dispense(inv[f], quantity, user)])
  {
  }

  /** The loop keeps every medicine, changes nothing about it but its
      current stock and `updatedBy`, and leaves each medicine's stock lower
      by exactly the quantities of the lines that were matched to it. It
      pushes one line per item up to the item it stopped on. */
  lemma {:induction false} StockConservation(inv: seq<Medicine>, items: seq<ItemRequest>, user: UserId)
    ensures var o := ProcessItems(inv, items, user);
      && |o.inventory| == |inv|
      && (forall j :: 0 <= j < |inv| ==> OnlyStockChanged(inv[j], o.inventory[j]))
      && (forall j :: 0 <= j < |inv| ==> o.inventory[j].stock.current == inv[j].stock.current - DispensedFrom(o.lines, j))
      && |o.lines| <= |items|
      && (o.failure.None? <==> |o.lines| == |items|)
    decreases |items|
  {
    if items != [] {
      var item := items[0];
      var found := FindFirst(inv, QueryFor(item));
      if !(found.Some? && inv[found.value].stock.current < item.quantity) {
        var next := if found.Some? then inv[found.value := Dispense(inv[found.value], item.quantity, user)] else inv;
        StockConservation(next, items[1..], user);
        var rest := ProcessItems(next, items[1..], user);
        var lines := [ToLineItem(item, found)] + rest.lines;
        assert lines[1..] == rest.lines;
        forall j | 0 <= j < |inv|
          ensures rest.inventory[j].stock.current == inv[j].stock.current - DispensedFrom(lines, j)
        {
          assert DispensedFrom(lines, j) == (if found == Some(j) then item.quantity else 0) + DispensedFrom(rest.lines, j);
        }
      }
    }
  }

  /** Each line keeps its item's literal data and refers to the medicine the
      lookup finds in the inventory as it was before the loop: decrements
      made for earlier items never change which medicine matches. */
  lemma {:induction false} ProcessedLines(inv: seq<Medicine>, items: seq<ItemRequest>, user: UserId)
    ensures var o := ProcessItems(inv, items, user);
      && |o.lines| <= |items|
      && forall k :: 0 <= k < |o.lines| ==> o.lines[k] == ToLineItem(items[k], FindFirst(inv, QueryFor(items[k])))
    decreases |items|
  {
    if items != [] {
      var item := items[0];
      var found := FindFirst(inv, QueryFor(item));
      if !(found.Some? && inv[found.value].stock.current < item.quantity) {
        var next := if found.Some? then inv[found.value := Dispense(inv[found.value], item.quantity, user)] else inv;
        ProcessedLines(next, items[1..], user);
        if found.Some? {
          DispenseKeepsCatalogue(inv, found.value, item.quantity, user);
        }
        var rest := ProcessItems(next, items[1..], user);
        var lines := ProcessItems(inv, items, user).lines;
        assert lines == [ToLineItem(item, found)] + rest.lines;
        forall k | 0 <= k < |lines|
          ensures lines[k] == ToLineItem(items[k], FindFirst(inv, QueryFor(items[k])))
        {
          if k > 0 {
            assert lines[k] == rest.lines[k - 1];
            assert items[1..][k - 1] == items[k];
            assert rest.lines[k - 1] == ToLineItem(items[k], FindFirst(next, QueryFor(items[k])));
            FindFirstIgnoresStock(inv, next, QueryFor(items[k]));
          }
        }
      }
    }
  }

  /** The loop stopped at item `|lines|` of `items`: its medicine was found,
      and its quantity exceeds that medicine's stock as already reduced by
      the earlier lines; `e` quotes that running stock. */
  predicate StoppedAt(inv: seq<Medicine>, items: seq<ItemRequest>, lines: seq<LineItem>, e: BillError)
  {
    && |lines| < |items|
    && var item := items[|lines|];
       var found := FindFirst(inv, QueryFor(item));
       && found.Some?
       && var available := inv[found.value].stock.current - DispensedFrom(lines, found.value);
          && available < item.quantity
          && e == InsufficientStock(item.medicineName, available, item.quantity)
  }

  /** The loop stops exactly on an item whose medicine was found and whose
      quantity exceeds that medicine's stock as already reduced by the
      earlier lines (so two lines for one batch are checked against the
      running stock); the error quotes that running stock. */
  lemma {:induction false} FailureCause(inv: seq<Medicine>, items: seq<ItemRequest>, user: UserId)
    ensures var o := ProcessItems(inv, items, user);
      o.failure.Some? ==> StoppedAt(inv, items, o.lines, o.failure.value)
    decreases |items|
  {
    if items != [] {
      var item := items[0];
      var found := FindFirst(inv, QueryFor(item));
      if !(found.Some? && inv[found.value].stock.current < item.quantity) {
        var next := if found.Some? then inv[found.value := Dispense(inv[found.value], item.quantity, user)] else inv;
        FailureCause(next, items[1..], user);
        var rest := ProcessItems(next, items[1..], user);
        assert ProcessItems(inv, items, user) == Outcome(rest.inventory, [ToLineItem(item, found)] + rest.lines, rest.failure);
        if rest.failure.Some? {
          assert items == [item] + items[1..];
          StoppedAtCons(inv, next, item, found, items[1..], rest.lines, rest.failure.value, user);
        }
      }
    }
  }

  /** One accepted item in front of a loop that stopped keeps the stop: the
      later item is found in the original inventory too, and its running
      stock counts the accepted item's decrement. */
  lemma StoppedAtCons(inv: seq<Medicine>, next: seq<Medicine>, item: ItemRequest, found: Option<MedicineId>,
                      items: seq<ItemRequest>, lines: seq<LineItem>, e: BillError, user: UserId)
    requires found == FindFirst(inv, QueryFor(item))
    requires found.Some? ==> next == inv[found.value := Dispense(inv[found.value], item.quantity, user)]
    requires found.None? ==> next == inv
    requires StoppedAt(next, items, lines, e)
    ensures StoppedAt(inv, [item] + items, [ToLineItem(item, found)] + lines, e)
  {
    var later := items[|lines|];
    assert ([item] + items)[|lines| + 1] == later;
    if found.Some? {
      DispenseKeepsCatalogue(inv, found.value, item.quantity, user);
    }
    FindFirstIgnoresStock(inv, next, QueryFor(later));
    var f := FindFirst(inv, QueryFor(later)).value;
    assert next[f].stock.current == inv[f].stock.current - (if found == Some(f) then item.quantity else 0);
    DispensedFromCons(ToLineItem(item, found), lines, f);
  }

  /** Stock never goes negative through bill creation. */
  lemma {:induction false} StockStaysNonNegative(inv: seq<Medicine>, items: seq<ItemRequest>, user: UserId)
    requires forall j :: 0 <= j < |inv| ==> inv[j].stock.current >= 0
    ensures var o := ProcessItems(inv, items, user);
      |o.inventory| == |inv| && forall j :: 0 <= j < |inv| ==> o.inventory[j].stock.current >= 0
    decreases |items|
  {
    if items != [] {
      var item := items[0];
      var found := FindFirst(inv, QueryFor(item));
      if !(found.Some? && inv[found.value].stock.current < item.quantity) {
        var next := if found.Some? then inv[found.value := Dispense(inv[found.value], item.quantity, user)] else inv;
        StockStaysNonNegative(next, items[1..], user);
      }
    }
  }

  /** Five units of batch B1 in stock and two lines of three for it: the
      first line is accepted and dispensed, the second is refused against the
      two units left, and the first decrement stays in place. */
  lemma DuplicateBatchExample(user: UserId)
    ensures
      var m := Medicine("Paracetamol", None, None, Tablet, "500mg", "500mg", "Acme", "B1", 0, 100,
                        StockLevels(5, 10, 1000), Pricing(1.0, 2.0, 2.5), true, 0, None);
      var item := ItemRequest("paracetamol", "B1", 3, 2.0, None, None);
      var o := ProcessItems([m], [item, item], user);
      && o.failure == Some(InsufficientStock("paracetamol", 2, 3))
      && |o.inventory| == 1 && o.inventory[0].stock.current == 2
      && |o.lines| == 1 && o.lines[0].medicine == Some(0)
  {
    var m := Medicine("Paracetamol", None, None, Tablet, "500mg", "500mg", "Acme", "B1", 0, 100,
                      StockLevels(5, 10, 1000), Pricing(1.0, 2.0, 2.5), true, 0, None);
    var item := ItemRequest("paracetamol", "B1", 3, 2.0, None, None);
    assert ToLower("Paracetamol") == "paracetamol";
    LowerUnchanged("paracetamol");
    assert OccursAt(ToLower("Paracetamol"), ToLower("paracetamol"), 0);
    assert Matches([m], 0, QueryFor(item));
    assert FindFirst([m], QueryFor(item)) == Some(0);
    var next := [Dispense(m, 3, user)];
    assert [m][0 := Dispense(m, 3, user)] == next;
    assert Matches(next, 0, QueryFor(item));
    assert FindFirst(next, QueryFor(item)) == Some(0);
    assert [item, item][1..] == [item];
  }
}
