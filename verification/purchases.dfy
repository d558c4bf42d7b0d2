/** `PurchaseSerializer.create` (inventory/serializers.py, repeated verbatim in
    inventory/views.py): a purchase, one item per line, the accumulated total
    and the stock increments, given already-validated lines and the company
    the view passes in. */
module Purchases {
  import opened Base
  import opened Models
  import opened Ledger

  /** The purchase item a line becomes, linked to purchase `pid`. */
  function PurchaseItemOf(pid: Id, l: Line): PurchaseItem {
    PurchaseItem(pid, l.product, l.quantity, l.unit, l.price)
  }

  /** The items created for `lines`, in input order. */
  function PurchaseRows(pid: Id, lines: seq<Line>): (rows: seq<PurchaseItem>)
    ensures |rows| == |lines|
    ensures forall k :: 0 <= k < |lines| ==> rows[k] == PurchaseItemOf(pid, lines[k])
  {
    seq(|lines|, k requires 0 <= k < |lines| => PurchaseItemOf(pid, lines[k]))
  }

  /** The store after a validated purchase: the purchase under key
      `s.nextId` with the accumulated total, one item per line under the keys
      after it, and the restocked product table. */
  function PurchaseWritten(s: Store, company: Id, vendor: Id, lines: seq<Line>, receipt: Uuid): Store
    requires KeysBelow(s.purchaseItems, s.nextId)
    requires LinesResolve(lines, s.products, s.units)
  {
    s.(purchases := s.purchases[s.nextId := Purchase(company, vendor, LineTotal(lines), receipt)],
       purchaseItems := ItemsWritten(s, lines),
       products := Restock(s.products, s.units, lines),
       nextId := s.nextId + 1 + |lines|)
  }

  /** The item table after a purchase under key `s.nextId`. */
  function ItemsWritten(s: Store, lines: seq<Line>): map<Id, PurchaseItem>
    requires KeysBelow(s.purchaseItems, s.nextId)
  {
    AppendRows(s.purchaseItems, s.nextId + 1, PurchaseRows(s.nextId, lines))
  }

  /** The item table of a purchase, spelled out. */
  lemma ItemsWrittenUnfolded(s: Store, lines: seq<Line>)
    requires KeysBelow(s.purchaseItems, s.nextId)
    ensures ItemsWritten(s, lines) == AppendRows(s.purchaseItems, s.nextId + 1, PurchaseRows(s.nextId, lines))
  {
  }

  /** `PurchaseSerializer.create`: insert the purchase, then one item per line,
      adding each line's converted quantity to its product's stock, and finally
      store the accumulated total. The request's `total` and `receipt_number`
      are read-only and never reach this point; the receipt number is the
      freshly generated `receipt`. A vendor, product or unit that does not
      exist fails request validation before anything is written; a company
      that does not exist is refused by the foreign key on the first insert. */
  function CreatePurchase(s: Store, company: Id, vendor: Id, lines: seq<Line>, receipt: Uuid): (r: Result<(Store, Id)>)
    requires Fresh(s)
    ensures r.Success? <==> vendor in s.vendors && LinesResolve(lines, s.products, s.units) && company in s.companies
    ensures r.Failure? ==>
      r.error == (if vendor in s.vendors && LinesResolve(lines, s.products, s.units) then IntegrityError else ValidationError)
  {
    if vendor !in s.vendors || !LinesResolve(lines, s.products, s.units) then Failure(ValidationError)
    else if company !in s.companies then Failure(IntegrityError)
    else Success((PurchaseWritten(s, company, vendor, lines, receipt), s.nextId))
  }

  /** A nested item as `PurchaseItemSerializer` validates it. The serializer
      lists every model field, so the item also carries `purchase`, a
      required foreign key. */
  datatype ItemRequest = ItemRequest(line: Line, purchase: Option<Id>)

  /** Every item names a stored product, unit and purchase. */
  predicate ItemsValid(items: seq<ItemRequest>, s: Store) {
    forall i :: 0 <= i < |items| ==>
      && items[i].line.product in s.products && items[i].line.unit in s.units
      && items[i].purchase.Some? && items[i].purchase.value in s.purchases
  }

  /** Purchase creation as written. Validation passes only items whose
      `purchase` names a stored purchase; the insert of the first item then
      passes `purchase` both by name and inside the item's data, which the
      call refuses. With no items the outcome is that of `CreatePurchase`. */
  function CreatePurchaseAsWritten(s: Store, company: Id, vendor: Id, items: seq<ItemRequest>, receipt: Uuid): Result<(Store, Id)>
    requires Fresh(s)
  {
    if vendor !in s.vendors || !ItemsValid(items, s) then Failure(ValidationError)
    else if company !in s.companies then Failure(IntegrityError)
    else if |items| > 0 then Failure(TypeError)
    else CreatePurchase(s, company, vendor, [], receipt)
  }

  /** As written, no purchase with at least one item is ever created. */
  lemma PurchaseWithItemsAsWrittenFails(s: Store, company: Id, vendor: Id, items: seq<ItemRequest>, receipt: Uuid)
    requires Fresh(s) && |items| > 0
    ensures CreatePurchaseAsWritten(s, company, vendor, items, receipt).Failure?
    ensures vendor in s.vendors && ItemsValid(items, s) && company in s.companies ==>
      CreatePurchaseAsWritten(s, company, vendor, items, receipt) == Failure(TypeError)
  {
  }

  /** As written and corrected agree on a purchase with no items. */
  lemma EmptyPurchaseAsWritten(s: Store, company: Id, vendor: Id, receipt: Uuid)
    requires Fresh(s)
    ensures CreatePurchaseAsWritten(s, company, vendor, [], receipt) == CreatePurchase(s, company, vendor, [], receipt)
  {
  }

  /** The purchase row itself: a fresh key, the total accumulated over the
      lines, the generated receipt number; no other purchase changes. */
  lemma PurchaseRecorded(s: Store, company: Id, vendor: Id, lines: seq<Line>, receipt: Uuid, s': Store, pid: Id)
    requires Fresh(s)
    requires CreatePurchase(s, company, vendor, lines, receipt) == Success((s', pid))
    ensures pid !in s.purchases && s'.purchases.Keys == s.purchases.Keys + {pid}
    ensures forall id :: id in s.purchases ==> s'.purchases[id] == s.purchases[id]
    ensures s'.purchases[pid] == Purchase(company, vendor, LineTotal(lines), receipt)
  {
  }

  /** The new items are the only ones linked to the new purchase: every
      existing item names an existing purchase, whose key is below
      `s.nextId`. */
  lemma NewPurchaseItemsOnly(s: Store, lines: seq<Line>)
    requires KeysBelow(s.purchaseItems, s.nextId) && KeysBelow(s.purchases, s.nextId)
    requires PurchaseItemsIn(s.purchaseItems, s.purchases.Keys, s.products.Keys, s.units.Keys)
    ensures var items := ItemsWritten(s, lines);
      forall id :: id in items && items[id].purchase == s.nextId ==> s.nextId < id <= s.nextId + |lines|
  {
  }

  /** Exactly one item per line is created, in input order under consecutive
      fresh keys, each linked to the new purchase. */
  lemma PurchaseItemsCreated(s: Store, company: Id, vendor: Id, lines: seq<Line>, receipt: Uuid, s': Store, pid: Id)
    requires Fresh(s)
    requires CreatePurchase(s, company, vendor, lines, receipt) == Success((s', pid))
    ensures forall id :: pid < id <= pid + |lines| ==> id !in s.purchaseItems
    ensures forall id :: pid < id <= pid + |lines| ==>
      id in s'.purchaseItems && s'.purchaseItems[id] == PurchaseItemOf(pid, lines[id - pid - 1])
  {
    PurchaseSucceeded(s, company, vendor, lines, receipt, s', pid);
    NewItemKeysUnused(s, lines, pid);
    NewItemsWritten(s, lines, pid, s'.purchaseItems);
  }

  /** A successful purchase wrote its rows from the store's own counter. */
  lemma PurchaseSucceeded(s: Store, company: Id, vendor: Id, lines: seq<Line>, receipt: Uuid, s': Store, pid: Id)
    requires Fresh(s)
    requires CreatePurchase(s, company, vendor, lines, receipt) == Success((s', pid))
    ensures pid == s.nextId && s'.purchaseItems == ItemsWritten(s, lines)
  {
  }

  /** The keys of a purchase's new items were unused before it. */
  lemma NewItemKeysUnused(s: Store, lines: seq<Line>, pid: Id)
    requires KeysBelow(s.purchaseItems, s.nextId) && pid == s.nextId
    ensures forall id :: pid < id <= pid + |lines| ==> id !in s.purchaseItems
  {
  }

  /** The item table after a purchase holds the item of line `k` under key
      `s.nextId + 1 + k`. */
  lemma NewItemsWritten(s: Store, lines: seq<Line>, pid: Id, items: map<Id, PurchaseItem>)
    requires KeysBelow(s.purchaseItems, s.nextId)
    requires pid == s.nextId && items == ItemsWritten(s, lines)
    ensures forall id :: pid < id <= pid + |lines| ==>
      id in items && items[id] == PurchaseItemOf(pid, lines[id - pid - 1])
  {
    AppendedItems(s.purchaseItems, s.nextId, lines);
  }

  /** Appending the rows of purchase `pid` after it puts line `k`'s item
      under key `pid + 1 + k`. */
  lemma AppendedItems(table: map<Id, PurchaseItem>, pid: Id, lines: seq<Line>)
    requires KeysBelow(table, pid + 1)
    ensures var items := AppendRows(table, pid + 1, PurchaseRows(pid, lines));
      forall id :: pid < id <= pid + |lines| ==>
        id in items && items[id] == PurchaseItemOf(pid, lines[id - pid - 1])
  {
  }

  /** Existing items are kept unchanged, and the only keys added are the new
      items' keys. */
  lemma PurchaseKeepsOldItems(s: Store, company: Id, vendor: Id, lines: seq<Line>, receipt: Uuid, s': Store, pid: Id)
    requires Fresh(s)
    requires CreatePurchase(s, company, vendor, lines, receipt) == Success((s', pid))
    ensures forall id :: id in s.purchaseItems ==> id in s'.purchaseItems && s'.purchaseItems[id] == s.purchaseItems[id]
    ensures forall id :: id in s'.purchaseItems ==> id in s.purchaseItems || pid < id <= pid + |lines|
  {
  }

  /** No item other than the new ones is linked to the new purchase. */
  lemma PurchaseOwnsOnlyNewItems(s: Store, company: Id, vendor: Id, lines: seq<Line>, receipt: Uuid, s': Store, pid: Id)
    requires Fresh(s) && PurchaseItemsIn(s.purchaseItems, s.purchases.Keys, s.products.Keys, s.units.Keys)
    requires CreatePurchase(s, company, vendor, lines, receipt) == Success((s', pid))
    ensures forall id :: id in s'.purchaseItems && s'.purchaseItems[id].purchase == pid ==> pid < id <= pid + |lines|
  {
    NewPurchaseItemsOnly(s, lines);
  }

  /** Only stock changes in the product table, and every product's stock grows
      by the converted quantities of the lines that name it. */
  lemma PurchaseRestocks(s: Store, company: Id, vendor: Id, lines: seq<Line>, receipt: Uuid, s': Store, pid: Id)
    requires Fresh(s)
    requires CreatePurchase(s, company, vendor, lines, receipt) == Success((s', pid))
    ensures s'.products.Keys == s.products.Keys
    ensures forall id :: id in s.products ==> s'.products[id] == s.products[id].(stock := s'.products[id].stock)
    ensures forall id :: id in s.products ==> s'.products[id].stock == s.products[id].stock + Gain(lines, s.units, id)
  {
  }

  /** Purchase creation writes the purchase, item and product tables and the
      key counter, and nothing else. */
  lemma PurchaseTouchesOnlyItsTables(s: Store, company: Id, vendor: Id, lines: seq<Line>, receipt: Uuid, s': Store, pid: Id)
    requires Fresh(s)
    requires CreatePurchase(s, company, vendor, lines, receipt) == Success((s', pid))
    ensures s'.(purchases := s.purchases, purchaseItems := s.purchaseItems, products := s.products, nextId := s.nextId) == s
  {
  }

  /** Appending items that each name a purchase, product and unit among the
      given keys keeps every item of the table so linked. */
  lemma AppendedItemsLinked(items: map<Id, PurchaseItem>, first: Id, rows: seq<PurchaseItem>,
                            purchases: set<Id>, products: set<Id>, units: set<Id>)
    requires KeysBelow(items, first) && PurchaseItemsIn(items, purchases, products, units)
    requires forall k :: 0 <= k < |rows| ==>
      rows[k].purchase in purchases && rows[k].product in products && rows[k].unit in units
    ensures PurchaseItemsIn(AppendRows(items, first, rows), purchases, products, units)
  {
    var r := AppendRows(items, first, rows);
    forall id | id in r
      ensures r[id].purchase in purchases && r[id].product in products && r[id].unit in units
    {
      if id !in items {
        assert r[id] == rows[id - first];
      }
    }
  }

  /** The new item table names only stored products and units and either an
      existing purchase or the new one. */
  lemma ItemsWrittenLinked(s: Store, lines: seq<Line>)
    requires KeysBelow(s.purchaseItems, s.nextId) && LinesResolve(lines, s.products, s.units)
    requires PurchaseItemsIn(s.purchaseItems, s.purchases.Keys, s.products.Keys, s.units.Keys)
    ensures PurchaseItemsIn(ItemsWritten(s, lines), s.purchases.Keys + {s.nextId}, s.products.Keys, s.units.Keys)
  {
    AppendedItemsLinked(s.purchaseItems, s.nextId + 1, PurchaseRows(s.nextId, lines), s.purchases.Keys + {s.nextId}, s.products.Keys, s.units.Keys);
  }

  /** The new purchase row names a stored company and vendor. */
  lemma PurchaseRowLinked(s: Store, company: Id, vendor: Id, lines: seq<Line>, receipt: Uuid)
    requires KeysBelow(s.purchaseItems, s.nextId) && LinesResolve(lines, s.products, s.units)
    requires PurchasesIn(s.purchases, s.companies.Keys, s.vendors.Keys)
    requires company in s.companies && vendor in s.vendors
    ensures var s' := PurchaseWritten(s, company, vendor, lines, receipt);
      PurchasesIn(s'.purchases, s'.companies.Keys, s'.vendors.Keys)
  {
  }

  /** The written store keeps every foreign key resolved. */
  lemma PurchaseWrittenLinked(s: Store, company: Id, vendor: Id, lines: seq<Line>, receipt: Uuid)
    requires KeysBelow(s.purchaseItems, s.nextId) && Linked(s)
    requires company in s.companies && vendor in s.vendors && LinesResolve(lines, s.products, s.units)
    ensures Linked(PurchaseWritten(s, company, vendor, lines, receipt))
  {
    ItemsWrittenLinked(s, lines);
    PurchaseRowLinked(s, company, vendor, lines, receipt);
    RestockLinked(s.products, s.units, lines, s.companies.Keys, s.units.Keys);
  }

  /** The written store hands out keys only from its new counter. */
  lemma PurchaseWrittenFresh(s: Store, company: Id, vendor: Id, lines: seq<Line>, receipt: Uuid)
    requires Fresh(s) && LinesResolve(lines, s.products, s.units)
    ensures Fresh(PurchaseWritten(s, company, vendor, lines, receipt))
  {
  }

  /** Purchase creation keeps every database constraint. */
  lemma PurchaseKeepsValid(s: Store, company: Id, vendor: Id, lines: seq<Line>, receipt: Uuid, s': Store, pid: Id)
    requires Valid(s)
    requires CreatePurchase(s, company, vendor, lines, receipt) == Success((s', pid))
    ensures Valid(s')
  {
    PurchaseWrittenLinked(s, company, vendor, lines, receipt);
    PurchaseWrittenFresh(s, company, vendor, lines, receipt);
  }

  /** Purchase creation as seen from the stock table: a product no line names
      keeps its stock, and a product named by exactly one line gains that
      line's quantity times the line unit's conversion factor. */
  lemma PurchaseStockEffect(s: Store, company: Id, vendor: Id, lines: seq<Line>, receipt: Uuid, s': Store, pid: Id, product: Id)
    requires Fresh(s)
    requires CreatePurchase(s, company, vendor, lines, receipt) == Success((s', pid))
    requires product in s.products
    ensures (forall i :: 0 <= i < |lines| ==> lines[i].product != product) ==>
      s'.products[product] == s.products[product]
    ensures forall i :: (0 <= i < |lines| && lines[i].product == product &&
                         (forall k :: 0 <= k < |lines| && k != i ==> lines[k].product != product)) ==>
      s'.products[product].stock == s.products[product].stock + lines[i].quantity * s.units[lines[i].unit].conversionFactor
  {
    RestockOneProduct(s.products, s.units, lines, product);
  }

  /** An empty line list creates a purchase with total 0, no items, and no
      stock change. */
  lemma EmptyPurchase(s: Store, company: Id, vendor: Id, receipt: Uuid)
    requires Fresh(s)
    requires company in s.companies && vendor in s.vendors
    ensures var r := CreatePurchase(s, company, vendor, [], receipt);
      && r.Success?
      && r.value.0.purchases[r.value.1].total == 0.0
      && r.value.0.purchaseItems == s.purchaseItems
      && r.value.0.products == s.products
  {
    var r := CreatePurchase(s, company, vendor, [], receipt);
    assert r.value.0.purchaseItems.Keys == s.purchaseItems.Keys;
    assert r.value.0.products.Keys == s.products.Keys;
  }

  /** A store with one company, one vendor, a kilogram unit, a gram unit
      whose factor is 0.001, and a product counted in kilograms with 10 in
      stock. */
  function ExampleStore(): Store {
    Store(map[0 := Company("Acme", "acme")], map[], map[],
          map[1 := Vendor(0, "Mill")],
          map[2 := Unit("kilogram", "kg", 0, None, 1.0), 3 := Unit("gram", "g", 0, Some(2), 0.001)],
          map[4 := Product(0, "Flour", 7, "", 2, 10.0, 0.0, 0.0, 0.0, {})],
          map[], map[], map[], map[], map[], map[], 5)
  }

  /** Buying 2000 grams at 5.0 each records a total of 10000.0 under key 5,
      one item under key 6, and adds 2000 * 0.001 = 2 kilograms to stock. */
  lemma PurchaseExample()
    ensures var r := CreatePurchase(ExampleStore(), 0, 1, [Line(4, 2000.0, 3, 5.0)], 9);
      && r.Success? && r.value.1 == 5
      && r.value.0.purchases[5].total == 10000.0
      && r.value.0.purchaseItems[6] == PurchaseItem(5, 4, 2000.0, 3, 5.0)
      && r.value.0.products[4].stock == 12.0
  {
    var s := ExampleStore();
    var lines := [Line(4, 2000.0, 3, 5.0)];
    assert lines[..0] == [];
    assert LineTotal(lines) == 10000.0;
    RestockOneProduct(s.products, s.units, lines, 4);
  }
}
