/** The serializers inventory/views.py defines again for its own viewsets:
    `PurchaseSerializer.create` and `ProductionOrderSerializer.create`, as
    the loops they are, row by row. Each is proved to write exactly what the
    serializers module's version writes. Like that version, they model the
    nested items and inputs without the parent key that, as written, makes
    every non-empty nested list fail (`Purchases.PurchaseWithItemsAsWrittenFails`,
    `Production.ProductionWithInputsAsWrittenFails`). */
module ViewSerializers {
  import opened Base
  import opened Models
  import opened Ledger
  import opened Purchases
  import opened Production

  /** The last row sits under the last key, after all the others. */
  lemma AppendRowsLast<T>(table: map<Id, T>, first: Id, rows: seq<T>)
    requires KeysBelow(table, first) && |rows| > 0
    ensures AppendRows(table, first, rows) ==
      AppendRows(table, first, rows[..|rows| - 1])[first + |rows| - 1 := rows[|rows| - 1]]
  {
  }

  /** One loop step of the purchase: the item table, running total and
      product table after line `k` are those of the first `k + 1` lines. */
  lemma PurchaseStep(items: map<Id, PurchaseItem>, products: map<Id, Product>, units: map<Id, Unit>,
                     pid: Id, lines: seq<Line>, k: nat)
    requires KeysBelow(items, pid + 1) && k < |lines| && LinesResolve(lines, products, units)
    ensures LinesResolve(lines[..k], products, units)
    ensures AppendRows(items, pid + 1, PurchaseRows(pid, lines[..k + 1])) ==
      AppendRows(items, pid + 1, PurchaseRows(pid, lines[..k]))[pid + 1 + k := PurchaseItemOf(pid, lines[k])]
    ensures LineTotal(lines[..k + 1]) == LineTotal(lines[..k]) + Amount(lines[k])
    ensures Restock(products, units, lines[..k + 1]) == RestockLine(Restock(products, units, lines[..k]), units, lines[k])
  {
    assert lines[..k + 1][..k] == lines[..k];
    var rows := PurchaseRows(pid, lines[..k + 1]);
    AppendRowsLast(items, pid + 1, rows);
    assert rows[..k] == PurchaseRows(pid, lines[..k]);
  }

  /** One loop step of the production order. */
  lemma ProductionStep(rows: map<Id, ProductionInput>, oid: Id, inputs: seq<InputLine>, k: nat)
    requires KeysBelow(rows, oid + 1) && k < |inputs| && InputsComplete(inputs)
    ensures AppendRows(rows, oid + 1, InputRows(oid, inputs[..k + 1])) ==
      AppendRows(rows, oid + 1, InputRows(oid, inputs[..k]))[oid + 1 + k := InputOf(oid, inputs[k])]
  {
    var rows' := InputRows(oid, inputs[..k + 1]);
    AppendRowsLast(rows, oid + 1, rows');
    assert rows'[..k] == InputRows(oid, inputs[..k]);
  }

  /** The loop of the view's `PurchaseSerializer.create`: for each line in
      order, insert its item under the next key, add `price * quantity` to
      the running total, and add `quantity * conversion_factor` to the stock
      of the line's product. */
  method PurchaseLoop(items0: map<Id, PurchaseItem>, products0: map<Id, Product>, units: map<Id, Unit>,
                      pid: Id, lines: seq<Line>)
    returns (items: map<Id, PurchaseItem>, total: real, products: map<Id, Product>)
    requires KeysBelow(items0, pid + 1) && LinesResolve(lines, products0, units)
    ensures items == AppendRows(items0, pid + 1, PurchaseRows(pid, lines))
    ensures total == LineTotal(lines)
    ensures products == Restock(products0, units, lines)
  {
    items, total, products := items0, 0.0, products0;
    for k := 0 to |lines|
      invariant total == LineTotal(lines[..k])
      invariant items == AppendRows(items0, pid + 1, PurchaseRows(pid, lines[..k]))
      invariant products == Restock(products0, units, lines[..k])
    {
      var l := lines[k];
      PurchaseStep(items0, products0, units, pid, lines, k);
      items := items[pid + 1 + k := PurchaseItemOf(pid, l)];
      total := total + Amount(l);
      products := RestockLine(products, units, l);
    }
    assert lines[..|lines|] == lines;
  }

  /** Saving a record twice under one key leaves the second value. */
  lemma OverwriteTwice<T>(table: map<Id, T>, id: Id, first: T, second: T)
    ensures table[id := first][id := second] == table[id := second]
  {
  }

  /** The writes of the view's `PurchaseSerializer.create` once validation
      has passed: the purchase is inserted with the model's default total 0,
      the loop runs over the lines, and the total is then saved on the
      purchase. */
  method WritePurchase(s: Store, company: Id, vendor: Id, lines: seq<Line>, receipt: Uuid) returns (s': Store)
    requires KeysBelow(s.purchaseItems, s.nextId) && LinesResolve(lines, s.products, s.units)
    ensures s' == PurchaseWritten(s, company, vendor, lines, receipt)
  {
    var pid: Id := s.nextId;
    var purchases: map<Id, Purchase> := s.purchases[pid := Purchase(company, vendor, 0.0, receipt)];
    var items, total, products := PurchaseLoop(s.purchaseItems, s.products, s.units, pid, lines);
    ItemsWrittenUnfolded(s, lines);
    purchases := purchases[pid := Purchase(company, vendor, total, receipt)];
    OverwriteTwice(s.purchases, pid, Purchase(company, vendor, 0.0, receipt), Purchase(company, vendor, total, receipt));
    s' := s.(purchases := purchases, purchaseItems := items, products := products, nextId := pid + 1 + |lines|);
  }

  /** The view's `PurchaseSerializer.create`, validation included. It writes
      exactly what the serializers module's version writes. */
  method CreatePurchaseInView(s: Store, company: Id, vendor: Id, lines: seq<Line>, receipt: Uuid)
    returns (r: Result<(Store, Id)>)
    requires Fresh(s)
    ensures r == CreatePurchase(s, company, vendor, lines, receipt)
  {
    if vendor !in s.vendors || !LinesResolve(lines, s.products, s.units) {
      return Failure(ValidationError);
    }
    if company !in s.companies {
      return Failure(IntegrityError);
    }
    var s' := WritePurchase(s, company, vendor, lines, receipt);
    r := Success((s', s.nextId));
  }

  /** The loop of the view's `ProductionOrderSerializer.create`: one input
      row per element, under consecutive keys. */
  method ProductionLoop(rows0: map<Id, ProductionInput>, oid: Id, inputs: seq<InputLine>)
    returns (rows: map<Id, ProductionInput>)
    requires KeysBelow(rows0, oid + 1) && InputsComplete(inputs)
    ensures rows == AppendRows(rows0, oid + 1, InputRows(oid, inputs))
  {
    rows := rows0;
    for k := 0 to |inputs|
      invariant rows == AppendRows(rows0, oid + 1, InputRows(oid, inputs[..k]))
    {
      ProductionStep(rows0, oid, inputs, k);
      rows := rows[oid + 1 + k := InputOf(oid, inputs[k])];
    }
    assert inputs[..|inputs|] == inputs;
  }

  /** The writes of the view's `ProductionOrderSerializer.create` once
      validation has passed: the order is inserted, then the loop adds the
      inputs; no product is touched. */
  method WriteProductionOrder(s: Store, company: Id, d: OrderData, inputs: seq<InputLine>) returns (s': Store)
    requires KeysBelow(s.inputs, s.nextId) && InputsComplete(inputs)
    ensures s' == OrderWritten(s, company, d, inputs)
  {
    var orders: map<Id, ProductionOrder> := s.orders[s.nextId := OrderOf(company, d)];
    var rows: map<Id, ProductionInput> := ProductionLoop(s.inputs, s.nextId, inputs);
    InputsWrittenUnfolded(s, inputs);
    s' := s.(orders := orders, inputs := rows, nextId := s.nextId + 1 + |inputs|);
  }

  /** The view's `ProductionOrderSerializer.create`, validation included. It
      writes exactly what the serializers module's version writes. */
  method CreateProductionOrderInView(s: Store, company: Id, d: OrderData, inputs: seq<InputLine>)
    returns (r: Result<(Store, Id)>)
    requires Fresh(s)
    ensures r == CreateProductionOrder(s, company, d, inputs)
  {
    if d.outputProduct !in s.products || !InputsResolve(inputs, s) {
      return Failure(ValidationError);
    }
    if company !in s.companies || !InputsComplete(inputs) {
      return Failure(IntegrityError);
    }
    var s' := WriteProductionOrder(s, company, d, inputs);
    r := Success((s', s.nextId));
  }
}
