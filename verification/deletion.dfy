/** The `on_delete` rules of inventory/models.py, as the deletions the
    viewsets' destroy action can start: a parent cascades to its line rows,
    a record still named by a PROTECT foreign key is refused, and a unit's
    derived units lose their base unit. Each operation takes the key of a
    stored record (the view has already looked it up). */
module Deletion {
  import opened Base
  import opened Models

  /** Every key of `table'` is a key of `table`. */
  lemma KeysBelowShrink<T>(table: map<Id, T>, table': map<Id, T>, bound: nat)
    requires table'.Keys <= table.Keys && KeysBelow(table, bound)
    ensures KeysBelow(table', bound)
  {
  }

  // ---------------------------------------------------------------- cascades

  /** The rows of `table` whose parent, as `parentOf` reads it, is not
      `parent`: what a CASCADE from that parent leaves. */
  function RowsNotOf<T>(table: map<Id, T>, parentOf: T -> Id, parent: Id): (r: map<Id, T>)
    ensures forall id :: id in r <==> id in table && parentOf(table[id]) != parent
    ensures forall id :: id in r ==> r[id] == table[id]
  {
    map id | id in table && parentOf(table[id]) != parent :: table[id]
  }

  /** `Sale.delete()`: the sale and, through `SaleItem.sale` (CASCADE), its
      own items. Nothing references a sale with PROTECT, so this cannot be
      refused. */
  function DeleteSale(s: Store, sale: Id): (s': Store)
    requires sale in s.sales
    ensures s'.sales.Keys == s.sales.Keys - {sale}
    ensures forall id :: id in s'.saleItems <==> id in s.saleItems && s.saleItems[id].sale != sale
  {
    s.(sales := s.sales - {sale}, saleItems := RowsNotOf(s.saleItems, (i: SaleItem) => i.sale, sale))
  }

  /** The remaining sales and items are unchanged, and no other table is
      touched. */
  lemma SaleDeleted(s: Store, sale: Id)
    requires sale in s.sales
    ensures var s' := DeleteSale(s, sale);
      && (forall id :: id in s'.sales ==> s'.sales[id] == s.sales[id])
      && (forall id :: id in s'.saleItems ==> s'.saleItems[id] == s.saleItems[id])
      && s'.(sales := s.sales, saleItems := s.saleItems) == s
  {
  }

  lemma DeleteSaleKeepsValid(s: Store, sale: Id)
    requires Valid(s) && sale in s.sales
    ensures Valid(DeleteSale(s, sale))
  {
    var s' := DeleteSale(s, sale);
    KeysBelowShrink(s.sales, s'.sales, s.nextId);
    KeysBelowShrink(s.saleItems, s'.saleItems, s.nextId);
    SaleCascadeLinked(s.saleItems, sale, s.sales.Keys, s.products.Keys, s.units.Keys);
  }

  /** Dropping a sale's items leaves every other item naming a remaining
      sale. */
  lemma SaleCascadeLinked(items: map<Id, SaleItem>, sale: Id, sales: set<Id>, products: set<Id>, units: set<Id>)
    requires SaleItemsIn(items, sales, products, units)
    ensures SaleItemsIn(RowsNotOf(items, (i: SaleItem) => i.sale, sale), sales - {sale}, products, units)
  {
  }

  /** `Purchase.delete()`: the purchase and its own items (CASCADE). The
      stock the purchase added is not taken back. */
  function DeletePurchase(s: Store, purchase: Id): (s': Store)
    requires purchase in s.purchases
    ensures s'.purchases.Keys == s.purchases.Keys - {purchase}
    ensures forall id :: id in s'.purchaseItems <==> id in s.purchaseItems && s.purchaseItems[id].purchase != purchase
  {
    s.(purchases := s.purchases - {purchase}, purchaseItems := RowsNotOf(s.purchaseItems, (i: PurchaseItem) => i.purchase, purchase))
  }

  /** The remaining purchases and items are unchanged, and no other table is
      touched: in particular every product keeps its stock. */
  lemma PurchaseDeleted(s: Store, purchase: Id)
    requires purchase in s.purchases
    ensures var s' := DeletePurchase(s, purchase);
      && (forall id :: id in s'.purchases ==> s'.purchases[id] == s.purchases[id])
      && (forall id :: id in s'.purchaseItems ==> s'.purchaseItems[id] == s.purchaseItems[id])
      && s'.products == s.products
      && s'.(purchases := s.purchases, purchaseItems := s.purchaseItems) == s
  {
  }

  lemma PurchaseCascadeLinked(items: map<Id, PurchaseItem>, purchase: Id, purchases: set<Id>, products: set<Id>, units: set<Id>)
    requires PurchaseItemsIn(items, purchases, products, units)
    ensures PurchaseItemsIn(RowsNotOf(items, (i: PurchaseItem) => i.purchase, purchase), purchases - {purchase}, products, units)
  {
  }

  lemma DeletePurchaseKeepsValid(s: Store, purchase: Id)
    requires Valid(s) && purchase in s.purchases
    ensures Valid(DeletePurchase(s, purchase))
  {
    var s' := DeletePurchase(s, purchase);
    KeysBelowShrink(s.purchases, s'.purchases, s.nextId);
    KeysBelowShrink(s.purchaseItems, s'.purchaseItems, s.nextId);
    PurchaseCascadeLinked(s.purchaseItems, purchase, s.purchases.Keys, s.products.Keys, s.units.Keys);
  }

  /** `ProductionOrder.delete()`: the order and its own inputs
      (`ProductionInput.production_order` is CASCADE). */
  function DeleteProductionOrder(s: Store, order: Id): (s': Store)
    requires order in s.orders
    ensures s'.orders.Keys == s.orders.Keys - {order}
    ensures forall id :: id in s'.inputs <==> id in s.inputs && s.inputs[id].order != order
  {
    s.(orders := s.orders - {order}, inputs := RowsNotOf(s.inputs, (i: ProductionInput) => i.order, order))
  }

  /** The remaining orders and inputs are unchanged, and no other table is
      touched. */
  lemma ProductionOrderDeleted(s: Store, order: Id)
    requires order in s.orders
    ensures var s' := DeleteProductionOrder(s, order);
      && (forall id :: id in s'.orders ==> s'.orders[id] == s.orders[id])
      && (forall id :: id in s'.inputs ==> s'.inputs[id] == s.inputs[id])
      && s'.(orders := s.orders, inputs := s.inputs) == s
  {
  }

  lemma InputCascadeLinked(inputs: map<Id, ProductionInput>, order: Id, orders: set<Id>, products: set<Id>, units: set<Id>)
    requires InputsIn(inputs, orders, products, units)
    ensures InputsIn(RowsNotOf(inputs, (i: ProductionInput) => i.order, order), orders - {order}, products, units)
  {
  }

  lemma DeleteProductionOrderKeepsValid(s: Store, order: Id)
    requires Valid(s) && order in s.orders
    ensures Valid(DeleteProductionOrder(s, order))
  {
    var s' := DeleteProductionOrder(s, order);
    KeysBelowShrink(s.orders, s'.orders, s.nextId);
    KeysBelowShrink(s.inputs, s'.inputs, s.nextId);
    InputCascadeLinked(s.inputs, order, s.orders.Keys, s.products.Keys, s.units.Keys);
  }

  // ------------------------------------------------------------ protections

  /** `Vendor.delete()`: refused while a purchase names the vendor
      (`Purchase.vendor` is PROTECT); nothing else references a vendor. */
  function DeleteVendor(s: Store, vendor: Id): (r: Result<Store>)
    requires vendor in s.vendors
    ensures r.Failure? <==> exists id :: id in s.purchases && s.purchases[id].vendor == vendor
    ensures r.Failure? ==> r.error == Protected
  {
    if exists id :: id in s.purchases && s.purchases[id].vendor == vendor then Failure(Protected)
    else Success(s.(vendors := s.vendors - {vendor}))
  }

  /** A successful deletion removes the vendor and nothing else. */
  lemma VendorDeleted(s: Store, vendor: Id, s': Store)
    requires vendor in s.vendors && DeleteVendor(s, vendor) == Success(s')
    ensures s'.vendors.Keys == s.vendors.Keys - {vendor}
    ensures forall id :: id in s'.vendors ==> s'.vendors[id] == s.vendors[id]
    ensures s'.(vendors := s.vendors) == s
  {
  }

  /** In a linked store, a vendor can be deleted exactly when every purchase
      still names a stored vendor without it. */
  lemma DeleteVendorIffUnreferenced(s: Store, vendor: Id)
    requires vendor in s.vendors && PurchasesIn(s.purchases, s.companies.Keys, s.vendors.Keys)
    ensures DeleteVendor(s, vendor).Success? <==> PurchasesIn(s.purchases, s.companies.Keys, s.vendors.Keys - {vendor})
  {
    if id :| id in s.purchases && s.purchases[id].vendor == vendor {
      assert s.purchases[id].vendor !in s.vendors.Keys - {vendor};
    }
  }

  lemma DeleteVendorKeepsValid(s: Store, vendor: Id, s': Store)
    requires Valid(s) && vendor in s.vendors && DeleteVendor(s, vendor) == Success(s')
    ensures Valid(s')
  {
    DeleteVendorIffUnreferenced(s, vendor);
  }

  /** `Client.delete()`: refused while a sale names the client (`Sale.client`
      is PROTECT); nothing else references a client. */
  function DeleteClient(s: Store, client: Id): (r: Result<Store>)
    requires client in s.clients
    ensures r.Failure? <==> exists id :: id in s.sales && s.sales[id].client == client
    ensures r.Failure? ==> r.error == Protected
  {
    if exists id :: id in s.sales && s.sales[id].client == client then Failure(Protected)
    else Success(s.(clients := s.clients - {client}))
  }

  /** A successful deletion removes the client and nothing else. */
  lemma ClientDeleted(s: Store, client: Id, s': Store)
    requires client in s.clients && DeleteClient(s, client) == Success(s')
    ensures s'.clients.Keys == s.clients.Keys - {client}
    ensures forall id :: id in s'.clients ==> s'.clients[id] == s.clients[id]
    ensures s'.(clients := s.clients) == s
  {
  }

  /** In a linked store, a client can be deleted exactly when every sale
      still names a stored client without it. */
  lemma DeleteClientIffUnreferenced(s: Store, client: Id)
    requires client in s.clients && SalesIn(s.sales, s.companies.Keys, s.clients.Keys)
    ensures DeleteClient(s, client).Success? <==> SalesIn(s.sales, s.companies.Keys, s.clients.Keys - {client})
  {
    if id :| id in s.sales && s.sales[id].client == client {
      assert s.sales[id].client !in s.clients.Keys - {client};
    }
  }

  lemma DeleteClientKeepsValid(s: Store, client: Id, s': Store)
    requires Valid(s) && client in s.clients && DeleteClient(s, client) == Success(s')
    ensures Valid(s')
  {
    DeleteClientIffUnreferenced(s, client);
  }

  /** Some production output, raw material, sale item or purchase item names
      `product`: the four PROTECT foreign keys to `Product`. */
  predicate ProductReferenced(s: Store, product: Id) {
    || (exists id :: id in s.orders && s.orders[id].outputProduct == product)
    || (exists id :: id in s.inputs && s.inputs[id].rawMaterial == product)
    || (exists id :: id in s.saleItems && s.saleItems[id].product == product)
    || (exists id :: id in s.purchaseItems && s.purchaseItems[id].product == product)
  }

  /** `Product.delete()`: refused while the product is referenced; otherwise
      the product goes, and with it its `allowed_units` links, which it
      holds itself. */
  function DeleteProduct(s: Store, product: Id): (r: Result<Store>)
    requires product in s.products
    ensures r.Failure? <==> ProductReferenced(s, product)
    ensures r.Failure? ==> r.error == Protected
  {
    if ProductReferenced(s, product) then Failure(Protected)
    else Success(s.(products := s.products - {product}))
  }

  /** A successful deletion removes the product and nothing else. */
  lemma ProductDeleted(s: Store, product: Id, s': Store)
    requires product in s.products && DeleteProduct(s, product) == Success(s')
    ensures s'.products.Keys == s.products.Keys - {product}
    ensures forall id :: id in s'.products ==> s'.products[id] == s.products[id]
    ensures s'.(products := s.products) == s
  {
  }

  /** The tables that reference products all still resolve with `products`
      as the product keys. */
  ghost predicate ProductRefsIn(s: Store, products: set<Id>) {
    && OrdersIn(s.orders, s.companies.Keys, products)
    && InputsIn(s.inputs, s.orders.Keys, products, s.units.Keys)
    && SaleItemsIn(s.saleItems, s.sales.Keys, products, s.units.Keys)
    && PurchaseItemsIn(s.purchaseItems, s.purchases.Keys, products, s.units.Keys)
  }

  /** In a linked store, a product can be deleted exactly when every
      reference to a product still resolves without it. */
  lemma DeleteProductIffUnreferenced(s: Store, product: Id)
    requires product in s.products && ProductRefsIn(s, s.products.Keys)
    ensures DeleteProduct(s, product).Success? <==> ProductRefsIn(s, s.products.Keys - {product})
  {
    var rest := s.products.Keys - {product};
    if id :| id in s.orders && s.orders[id].outputProduct == product {
      assert s.orders[id].outputProduct !in rest;
    } else if id :| id in s.inputs && s.inputs[id].rawMaterial == product {
      assert s.inputs[id].rawMaterial !in rest;
    } else if id :| id in s.saleItems && s.saleItems[id].product == product {
      assert s.saleItems[id].product !in rest;
    } else if id :| id in s.purchaseItems && s.purchaseItems[id].product == product {
      assert s.purchaseItems[id].product !in rest;
    }
  }

  lemma DeleteProductKeepsValid(s: Store, product: Id, s': Store)
    requires Valid(s) && product in s.products && DeleteProduct(s, product) == Success(s')
    ensures Valid(s')
  {
    DeleteProductIffUnreferenced(s, product);
  }

  /** Some product's base unit, production input, sale item or purchase item
      names `unit`: the four PROTECT foreign keys to `Unit`. */
  predicate UnitReferenced(s: Store, unit: Id) {
    || (exists id :: id in s.products && s.products[id].baseUnit == unit)
    || (exists id :: id in s.inputs && s.inputs[id].unit == unit)
    || (exists id :: id in s.saleItems && s.saleItems[id].unit == unit)
    || (exists id :: id in s.purchaseItems && s.purchaseItems[id].unit == unit)
  }

  /** The units other than `unit`, with `base_unit` set to null on those
      derived from it (SET_NULL). */
  function DetachUnit(units: map<Id, Unit>, unit: Id): (r: map<Id, Unit>)
    ensures r.Keys == units.Keys - {unit}
  {
    map id | id in units && id != unit ::
      if units[id].baseUnit == Some(unit) then units[id].(baseUnit := None) else units[id]
  }

  /** The products with `unit` dropped from their allowed units: the
      many-to-many link rows go with the unit. */
  function DisallowUnit(products: map<Id, Product>, unit: Id): (r: map<Id, Product>)
    ensures r.Keys == products.Keys
  {
    map id | id in products :: products[id].(allowedUnits := products[id].allowedUnits - {unit})
  }

  /** `Unit.delete()`: refused while the unit is referenced; otherwise the
      unit goes, its derived units lose their base unit, and products stop
      allowing it. */
  function DeleteUnit(s: Store, unit: Id): (r: Result<Store>)
    requires unit in s.units
    ensures r.Failure? <==> UnitReferenced(s, unit)
    ensures r.Failure? ==> r.error == Protected
  {
    if UnitReferenced(s, unit) then Failure(Protected)
    else Success(UnitRemoved(s, unit))
  }

  /** The store once `unit` is gone, its derived units detached and its
      allowed-unit links dropped. */
  function UnitRemoved(s: Store, unit: Id): Store {
    s.(units := DetachUnit(s.units, unit), products := DisallowUnit(s.products, unit))
  }

  /** A successful deletion removes the unit; a unit derived from it keeps
      every field but `base_unit`, which becomes null; every other unit is
      unchanged; products lose only the allowed-unit link; no other table
      changes. */
  lemma UnitDeleted(s: Store, unit: Id, s': Store)
    requires unit in s.units && DeleteUnit(s, unit) == Success(s')
    ensures s'.units.Keys == s.units.Keys - {unit}
    ensures forall id :: id in s'.units ==>
      s'.units[id].baseUnit == (if s.units[id].baseUnit == Some(unit) then None else s.units[id].baseUnit)
    ensures forall id :: id in s'.units ==> s'.units[id].(baseUnit := s.units[id].baseUnit) == s.units[id]
    ensures s'.products.Keys == s.products.Keys
    ensures forall id :: id in s'.products ==>
      && s'.products[id].allowedUnits == s.products[id].allowedUnits - {unit}
      && s'.products[id].(allowedUnits := s.products[id].allowedUnits) == s.products[id]
    ensures s'.(units := s.units, products := s.products) == s
  {
  }

  /** The tables that reference units all still resolve with `units` as the
      unit keys, once products no longer allow the deleted unit. */
  ghost predicate UnitRefsIn(s: Store, products: map<Id, Product>, units: set<Id>) {
    && ProductsIn(products, s.companies.Keys, units)
    && InputsIn(s.inputs, s.orders.Keys, s.products.Keys, units)
    && SaleItemsIn(s.saleItems, s.sales.Keys, s.products.Keys, units)
    && PurchaseItemsIn(s.purchaseItems, s.purchases.Keys, s.products.Keys, units)
  }

  /** In a linked store, a unit can be deleted exactly when, after products
      drop it from their allowed units, every reference to a unit still
      resolves without it. */
  lemma DeleteUnitIffUnreferenced(s: Store, unit: Id)
    requires unit in s.units && UnitRefsIn(s, s.products, s.units.Keys)
    ensures DeleteUnit(s, unit).Success? <==> UnitRefsIn(s, DisallowUnit(s.products, unit), s.units.Keys - {unit})
  {
    if UnitReferenced(s, unit) {
      ReferencedUnitDangles(s, unit);
    } else {
      UnreferencedUnitResolves(s, unit);
    }
  }

  /** A reference to the unit dangles once it is gone. */
  lemma ReferencedUnitDangles(s: Store, unit: Id)
    requires UnitReferenced(s, unit)
    ensures !UnitRefsIn(s, DisallowUnit(s.products, unit), s.units.Keys - {unit})
  {
    var rest := s.units.Keys - {unit};
    var products := DisallowUnit(s.products, unit);
    if id :| id in s.products && s.products[id].baseUnit == unit {
      assert products[id].baseUnit !in rest;
    } else if id :| id in s.inputs && s.inputs[id].unit == unit {
      assert s.inputs[id].unit !in rest;
    } else if id :| id in s.saleItems && s.saleItems[id].unit == unit {
      assert s.saleItems[id].unit !in rest;
    } else {
      var id :| id in s.purchaseItems && s.purchaseItems[id].unit == unit;
      assert s.purchaseItems[id].unit !in rest;
    }
  }

  /** Without references to the unit, everything still resolves once it is
      gone. */
  lemma UnreferencedUnitResolves(s: Store, unit: Id)
    requires !UnitReferenced(s, unit) && UnitRefsIn(s, s.products, s.units.Keys)
    ensures UnitRefsIn(s, DisallowUnit(s.products, unit), s.units.Keys - {unit})
  {
  }

  /** The remaining units' base units stay inside the remaining units. */
  lemma DetachUnitLinked(units: map<Id, Unit>, unit: Id, companies: set<Id>)
    requires UnitsIn(units, companies)
    ensures UnitsIn(DetachUnit(units, unit), companies)
  {
  }

  /** Removing an unreferenced unit keeps every foreign key resolved. */
  lemma UnitRemovedLinked(s: Store, unit: Id)
    requires Linked(s) && UnitRefsIn(s, DisallowUnit(s.products, unit), s.units.Keys - {unit})
    ensures Linked(UnitRemoved(s, unit))
  {
    DetachUnitLinked(s.units, unit, s.companies.Keys);
  }

  lemma DeleteUnitKeepsValid(s: Store, unit: Id, s': Store)
    requires Valid(s) && unit in s.units && DeleteUnit(s, unit) == Success(s')
    ensures Valid(s')
  {
    DeleteUnitIffUnreferenced(s, unit);
    UnitRemovedLinked(s, unit);
    KeysBelowShrink(s.units, s'.units, s.nextId);
  }
}
