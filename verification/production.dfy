/** `ProductionOrderSerializer.create`: an order and one input row per element,
    with no stock movement. */
module Production {
  import opened Base
  import opened Models

  /** Validated fields of a production order request; absent ones take the
      model's defaults. */
  datatype OrderData = OrderData(status: Option<ProductionStatus>, outputProduct: Id,
                                 quantityProduced: Option<real>, goodQuantity: Option<real>,
                                 damagedQuantity: Option<real>, notes: string)

  /** One validated element of a production order's `inputs` list.
      `planned_quantity` and `actual_used` may be left out of the request
      (the model fields allow blank), but the columns have no default and are
      not nullable. */
  datatype InputLine = InputLine(rawMaterial: Id, plannedQuantity: Option<real>, actualUsed: Option<real>,
                                 wastage: Option<real>, qualityStatus: Option<QualityStatus>, unit: Id)

  /** Every input names a stored product and a stored unit. */
  predicate InputsResolve(inputs: seq<InputLine>, s: Store) {
    forall i :: 0 <= i < |inputs| ==> inputs[i].rawMaterial in s.products && inputs[i].unit in s.units
  }

  /** Every input carries both `planned_quantity` and `actual_used`, so its
      row can be inserted. */
  predicate InputsComplete(inputs: seq<InputLine>) {
    forall i :: 0 <= i < |inputs| ==> inputs[i].plannedQuantity.Some? && inputs[i].actualUsed.Some?
  }

  /** The order row `ProductionOrder.objects.create` inserts. */
  function OrderOf(company: Id, d: OrderData): ProductionOrder {
    ProductionOrder(company, d.status.GetOr(Planned), d.outputProduct, d.quantityProduced.GetOr(0.0),
                    d.goodQuantity.GetOr(0.0), d.damagedQuantity.GetOr(0.0), d.notes)
  }

  /** The input row created for one element, linked to order `oid`. */
  function InputOf(oid: Id, l: InputLine): ProductionInput
    requires l.plannedQuantity.Some? && l.actualUsed.Some?
  {
    ProductionInput(oid, l.rawMaterial, l.plannedQuantity.value, l.actualUsed.value, l.wastage.GetOr(0.0),
                    l.qualityStatus.GetOr(Good), l.unit)
  }

  function InputRows(oid: Id, inputs: seq<InputLine>): (rows: seq<ProductionInput>)
    requires InputsComplete(inputs)
    ensures |rows| == |inputs|
    ensures forall k :: 0 <= k < |inputs| ==> rows[k] == InputOf(oid, inputs[k])
  {
    if |inputs| == 0 then []
    else InputRows(oid, inputs[..|inputs| - 1]) + [InputOf(oid, inputs[|inputs| - 1])]
  }

  /** The store after a validated production order: the order under key
      `s.nextId` and one input row per element under the keys after it. */
  function OrderWritten(s: Store, company: Id, d: OrderData, inputs: seq<InputLine>): Store
    requires KeysBelow(s.inputs, s.nextId) && InputsComplete(inputs)
  {
    s.(orders := s.orders[s.nextId := OrderOf(company, d)],
       inputs := InputsWritten(s, inputs),
       nextId := s.nextId + 1 + |inputs|)
  }

  /** The input table after an order under key `s.nextId`. */
  function InputsWritten(s: Store, inputs: seq<InputLine>): map<Id, ProductionInput>
    requires KeysBelow(s.inputs, s.nextId) && InputsComplete(inputs)
  {
    AppendRows(s.inputs, s.nextId + 1, InputRows(s.nextId, inputs))
  }

  /** The input table of a production order, spelled out. */
  lemma InputsWrittenUnfolded(s: Store, inputs: seq<InputLine>)
    requires KeysBelow(s.inputs, s.nextId) && InputsComplete(inputs)
    ensures InputsWritten(s, inputs) == AppendRows(s.inputs, s.nextId + 1, InputRows(s.nextId, inputs))
  {
  }

  /** `ProductionOrderSerializer.create` (the later of the two definitions in
      serializers.py): insert the order, then one input row per element. An
      output product, raw material or unit that does not exist fails request
      validation; a company that does not exist is refused by the foreign key,
      and so is an input without `planned_quantity` or `actual_used` by its
      NOT NULL columns. Other fields left out of the request take the model
      defaults: status PLANNED and quantities 0. */
  function CreateProductionOrder(s: Store, company: Id, d: OrderData, inputs: seq<InputLine>): (r: Result<(Store, Id)>)
    requires Fresh(s)
    ensures r.Success? <==>
      d.outputProduct in s.products && InputsResolve(inputs, s) && company in s.companies && InputsComplete(inputs)
    ensures r.Failure? ==>
      r.error == (if d.outputProduct in s.products && InputsResolve(inputs, s) then IntegrityError else ValidationError)
  {
    if d.outputProduct !in s.products || !InputsResolve(inputs, s) then Failure(ValidationError)
    else if company !in s.companies || !InputsComplete(inputs) then Failure(IntegrityError)
    else Success((OrderWritten(s, company, d, inputs), s.nextId))
  }

  /** A nested input as `ProductionInputSerializer` validates it. The
      serializer lists every model field, so the input also carries
      `production_order`, a required foreign key. */
  datatype InputRequest = InputRequest(input: InputLine, order: Option<Id>)

  /** Every input names a stored raw material, unit and production order. */
  predicate InputRequestsValid(inputs: seq<InputRequest>, s: Store) {
    forall i :: 0 <= i < |inputs| ==>
      && inputs[i].input.rawMaterial in s.products && inputs[i].input.unit in s.units
      && inputs[i].order.Some? && inputs[i].order.value in s.orders
  }

  /** Production order creation as written. Validation passes only inputs
      whose `production_order` names a stored order; the insert of the first
      input then passes `production_order` both by name and inside the
      input's data, which the call refuses. With no inputs the outcome is
      that of `CreateProductionOrder`. */
  function CreateProductionOrderAsWritten(s: Store, company: Id, d: OrderData, inputs: seq<InputRequest>): Result<(Store, Id)>
    requires Fresh(s)
  {
    if d.outputProduct !in s.products || !InputRequestsValid(inputs, s) then Failure(ValidationError)
    else if company !in s.companies then Failure(IntegrityError)
    else if |inputs| > 0 then Failure(TypeError)
    else CreateProductionOrder(s, company, d, [])
  }

  /** As written, no production order with at least one input is ever
      created. */
  lemma ProductionWithInputsAsWrittenFails(s: Store, company: Id, d: OrderData, inputs: seq<InputRequest>)
    requires Fresh(s) && |inputs| > 0
    ensures CreateProductionOrderAsWritten(s, company, d, inputs).Failure?
    ensures d.outputProduct in s.products && InputRequestsValid(inputs, s) && company in s.companies ==>
      CreateProductionOrderAsWritten(s, company, d, inputs) == Failure(TypeError)
  {
  }

  /** As written and corrected agree on an order with no inputs. */
  lemma EmptyProductionAsWritten(s: Store, company: Id, d: OrderData)
    requires Fresh(s)
    ensures CreateProductionOrderAsWritten(s, company, d, []) == CreateProductionOrder(s, company, d, [])
  {
  }

  /** The order row itself: a fresh key, the caller's company and output
      product, status PLANNED and quantities 0 unless the request supplies
      them; no other order changes. */
  lemma ProductionOrderRecorded(s: Store, company: Id, d: OrderData, inputs: seq<InputLine>, s': Store, oid: Id)
    requires Fresh(s)
    requires CreateProductionOrder(s, company, d, inputs) == Success((s', oid))
    ensures oid !in s.orders && s'.orders.Keys == s.orders.Keys + {oid}
    ensures forall id :: id in s.orders ==> s'.orders[id] == s.orders[id]
    ensures s'.orders[oid].company == company && s'.orders[oid].outputProduct == d.outputProduct
    ensures s'.orders[oid].status == (if d.status.Some? then d.status.value else Planned)
    ensures s'.orders[oid].quantityProduced == (if d.quantityProduced.Some? then d.quantityProduced.value else 0.0)
    ensures s'.orders[oid].goodQuantity == (if d.goodQuantity.Some? then d.goodQuantity.value else 0.0)
    ensures s'.orders[oid].damagedQuantity == (if d.damagedQuantity.Some? then d.damagedQuantity.value else 0.0)
    ensures s'.orders[oid].notes == d.notes
  {
  }

  /** Exactly one input row per element is created, in input order under
      consecutive fresh keys, each linked to the new order. */
  lemma ProductionInputsCreated(s: Store, company: Id, d: OrderData, inputs: seq<InputLine>, s': Store, oid: Id)
    requires Fresh(s)
    requires CreateProductionOrder(s, company, d, inputs) == Success((s', oid))
    ensures forall id :: oid < id <= oid + |inputs| ==> id !in s.inputs
    ensures forall id :: oid < id <= oid + |inputs| ==>
      id in s'.inputs && s'.inputs[id] == InputOf(oid, inputs[id - oid - 1])
  {
    assert s'.inputs == InputsWritten(s, inputs);
  }

  /** Every new input row has wastage 0 and quality GOOD unless its element
      supplies them. */
  lemma ProductionInputDefaults(s: Store, company: Id, d: OrderData, inputs: seq<InputLine>, s': Store, oid: Id)
    requires Fresh(s)
    requires CreateProductionOrder(s, company, d, inputs) == Success((s', oid))
    ensures forall id :: oid < id <= oid + |inputs| ==>
      (id in s'.inputs &&
       var l := inputs[id - oid - 1];
       && s'.inputs[id].wastage == (if l.wastage.Some? then l.wastage.value else 0.0)
       && s'.inputs[id].qualityStatus == (if l.qualityStatus.Some? then l.qualityStatus.value else Good))
  {
    ProductionInputsCreated(s, company, d, inputs, s', oid);
    forall id | oid < id <= oid + |inputs|
      ensures id in s'.inputs && s'.inputs[id] == InputOf(oid, inputs[id - oid - 1])
    {
    }
  }

  /** Existing input rows are kept unchanged, and the only keys added are the
      new rows' keys. */
  lemma ProductionKeepsOldInputs(s: Store, company: Id, d: OrderData, inputs: seq<InputLine>, s': Store, oid: Id)
    requires Fresh(s)
    requires CreateProductionOrder(s, company, d, inputs) == Success((s', oid))
    ensures forall id :: id in s.inputs ==> id in s'.inputs && s'.inputs[id] == s.inputs[id]
    ensures forall id :: id in s'.inputs ==> id in s.inputs || oid < id <= oid + |inputs|
  {
  }

  /** The new input rows are the only ones linked to the new order: every
      existing row names an existing order, whose key is below `oid`. */
  lemma ProductionOwnsOnlyNewInputs(s: Store, company: Id, d: OrderData, inputs: seq<InputLine>, s': Store, oid: Id)
    requires Fresh(s) && InputsIn(s.inputs, s.orders.Keys, s.products.Keys, s.units.Keys)
    requires CreateProductionOrder(s, company, d, inputs) == Success((s', oid))
    ensures forall id :: id in s'.inputs && s'.inputs[id].order == oid ==> oid < id <= oid + |inputs|
  {
    NewInputsOnly(s, inputs);
  }

  /** Only the appended rows can name order `s.nextId`. */
  lemma NewInputsOnly(s: Store, inputs: seq<InputLine>)
    requires KeysBelow(s.inputs, s.nextId) && KeysBelow(s.orders, s.nextId) && InputsComplete(inputs)
    requires InputsIn(s.inputs, s.orders.Keys, s.products.Keys, s.units.Keys)
    ensures var rows := InputsWritten(s, inputs);
      forall id :: id in rows && rows[id].order == s.nextId ==> s.nextId < id <= s.nextId + |inputs|
  {
  }

  /** Production order creation writes the order and input tables and the
      key counter, and nothing else: in particular no product's stock moves,
      whatever the planned, used or produced quantities. */
  lemma ProductionLeavesStock(s: Store, company: Id, d: OrderData, inputs: seq<InputLine>, s': Store, oid: Id)
    requires Fresh(s)
    requires CreateProductionOrder(s, company, d, inputs) == Success((s', oid))
    ensures s'.products == s.products
    ensures s'.(orders := s.orders, inputs := s.inputs, nextId := s.nextId) == s
  {
  }

  /** Appending input rows that each name an order, product and unit among
      the given keys keeps every row of the table so linked. */
  lemma AppendedInputsLinked(table: map<Id, ProductionInput>, first: Id, rows: seq<ProductionInput>,
                             orders: set<Id>, products: set<Id>, units: set<Id>)
    requires KeysBelow(table, first) && InputsIn(table, orders, products, units)
    requires forall k :: 0 <= k < |rows| ==>
      rows[k].order in orders && rows[k].rawMaterial in products && rows[k].unit in units
    ensures InputsIn(AppendRows(table, first, rows), orders, products, units)
  {
    var r := AppendRows(table, first, rows);
    forall id | id in r
      ensures r[id].order in orders && r[id].rawMaterial in products && r[id].unit in units
    {
      if id !in table {
        assert r[id] == rows[id - first];
      }
    }
  }

  /** The new input table names only stored products and units and either an
      existing order or the new one. */
  lemma InputsWrittenLinked(s: Store, inputs: seq<InputLine>)
    requires KeysBelow(s.inputs, s.nextId) && InputsResolve(inputs, s) && InputsComplete(inputs)
    requires InputsIn(s.inputs, s.orders.Keys, s.products.Keys, s.units.Keys)
    ensures InputsIn(InputsWritten(s, inputs), s.orders.Keys + {s.nextId}, s.products.Keys, s.units.Keys)
  {
    AppendedInputsLinked(s.inputs, s.nextId + 1, InputRows(s.nextId, inputs), s.orders.Keys + {s.nextId}, s.products.Keys, s.units.Keys);
  }

  /** The written store keeps every foreign key resolved. */
  lemma OrderWrittenLinked(s: Store, company: Id, d: OrderData, inputs: seq<InputLine>)
    requires KeysBelow(s.inputs, s.nextId) && Linked(s)
    requires company in s.companies && d.outputProduct in s.products && InputsResolve(inputs, s)
    requires InputsComplete(inputs)
    ensures Linked(OrderWritten(s, company, d, inputs))
  {
    InputsWrittenLinked(s, inputs);
  }

  /** The written store hands out keys only from its new counter. */
  lemma OrderWrittenFresh(s: Store, company: Id, d: OrderData, inputs: seq<InputLine>)
    requires Fresh(s) && InputsComplete(inputs)
    ensures Fresh(OrderWritten(s, company, d, inputs))
  {
  }

  /** Production order creation keeps every database constraint. */
  lemma ProductionKeepsValid(s: Store, company: Id, d: OrderData, inputs: seq<InputLine>, s': Store, oid: Id)
    requires Valid(s)
    requires CreateProductionOrder(s, company, d, inputs) == Success((s', oid))
    ensures Valid(s')
  {
    OrderWrittenLinked(s, company, d, inputs);
    OrderWrittenFresh(s, company, d, inputs);
  }
}
