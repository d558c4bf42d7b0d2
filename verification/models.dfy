/** The entities of the inventory backend and the store that holds them: one
    id-to-record table per model class, plus the counter that hands out keys.
    Contact details, images, timestamps and the auth framework's own user
    fields are not part of this model. */
module Models {
  import opened Base

  /** `CustomUser.COMPANY_ROLES`. */
  datatype Role = Admin | Manager | Staff

  /** `ProductionOrder.PRODUCTION_STATUS`. */
  datatype ProductionStatus = Planned | InProgress | Completed | Cancelled

  /** `ProductionInput.QUALITY_STATUS`. */
  datatype QualityStatus = Good | Damaged | Excess | Short

  /** The tenant: every other record belongs to one. */
  datatype Company = Company(name: string, slug: string)

  /** A login; `company` is a non-null foreign key. */
  datatype CustomUser = CustomUser(username: string, company: Id, role: Role)

  datatype Client = Client(company: Id, name: string)

  datatype Vendor = Vendor(company: Id, name: string)

  /** A unit of measure; `conversionFactor` multiplies a quantity in this unit
      to obtain the quantity in `baseUnit`. */
  datatype Unit = Unit(name: string, symbol: string, company: Id,
                       baseUnit: Option<Id>, conversionFactor: real)

  datatype Product = Product(company: Id, name: string, sku: Uuid, description: string,
                             baseUnit: Id, stock: real, reorderLevel: real,
                             purchasePrice: real, salePrice: real, allowedUnits: set<Id>)

  datatype ProductionOrder = ProductionOrder(company: Id, status: ProductionStatus,
                                             outputProduct: Id, quantityProduced: real,
                                             goodQuantity: real, damagedQuantity: real,
                                             notes: string)

  datatype ProductionInput = ProductionInput(order: Id, rawMaterial: Id, plannedQuantity: real,
                                             actualUsed: real, wastage: real,
                                             qualityStatus: QualityStatus, unit: Id)

  datatype Sale = Sale(company: Id, client: Id, total: real, invoiceNumber: Uuid)

  datatype SaleItem = SaleItem(sale: Id, product: Id, quantity: real, unit: Id, price: real)

  datatype Purchase = Purchase(company: Id, vendor: Id, total: real, receiptNumber: Uuid)

  datatype PurchaseItem = PurchaseItem(purchase: Id, product: Id, quantity: real, unit: Id, price: real)

  /** The persisted state: one table per model class. Every key ever handed
      out is below `nextId`. */
  datatype Store = Store(
    companies: map<Id, Company>,
    users: map<Id, CustomUser>,
    clients: map<Id, Client>,
    vendors: map<Id, Vendor>,
    units: map<Id, Unit>,
    products: map<Id, Product>,
    orders: map<Id, ProductionOrder>,
    inputs: map<Id, ProductionInput>,
    sales: map<Id, Sale>,
    saleItems: map<Id, SaleItem>,
    purchases: map<Id, Purchase>,
    purchaseItems: map<Id, PurchaseItem>,
    nextId: nat)

  /** Every key of `table` is below `bound`. */
  ghost predicate KeysBelow<T>(table: map<Id, T>, bound: nat) {
    forall id :: id in table ==> id < bound
  }

  /** Keys are handed out from `nextId`, so a key at or above it is unused. */
  ghost predicate Fresh(s: Store) {
    && KeysBelow(s.companies, s.nextId) && KeysBelow(s.users, s.nextId)
    && KeysBelow(s.clients, s.nextId) && KeysBelow(s.vendors, s.nextId)
    && KeysBelow(s.units, s.nextId) && KeysBelow(s.products, s.nextId)
    && KeysBelow(s.orders, s.nextId) && KeysBelow(s.inputs, s.nextId)
    && KeysBelow(s.sales, s.nextId) && KeysBelow(s.saleItems, s.nextId)
    && KeysBelow(s.purchases, s.nextId) && KeysBelow(s.purchaseItems, s.nextId)
  }

  /** `Company.name` and `Company.slug` are each unique. */
  ghost predicate CompaniesUnique(companies: map<Id, Company>) {
    forall a, b :: a in companies && b in companies && a != b ==>
      companies[a].name != companies[b].name && companies[a].slug != companies[b].slug
  }

  /** `CustomUser.username` is unique, as the auth framework's user declares
      it. */
  ghost predicate UsernamesUnique(users: map<Id, CustomUser>) {
    forall a, b :: a in users && b in users && a != b ==> users[a].username != users[b].username
  }

  // Foreign keys, one predicate per referencing table: each names the key
  // sets of the tables it references, so a write that leaves a table and its
  // targets alone leaves the predicate's arguments, and so its truth, alone.

  ghost predicate UsersIn(users: map<Id, CustomUser>, companies: set<Id>) {
    forall id :: id in users ==> users[id].company in companies
  }

  ghost predicate ClientsIn(clients: map<Id, Client>, companies: set<Id>) {
    forall id :: id in clients ==> clients[id].company in companies
  }

  ghost predicate VendorsIn(vendors: map<Id, Vendor>, companies: set<Id>) {
    forall id :: id in vendors ==> vendors[id].company in companies
  }

  /** A unit's base unit, when set, is itself a unit. */
  ghost predicate UnitsIn(units: map<Id, Unit>, companies: set<Id>) {
    forall id :: id in units ==>
      units[id].company in companies && (units[id].baseUnit.Some? ==> units[id].baseUnit.value in units)
  }

  ghost predicate ProductsIn(products: map<Id, Product>, companies: set<Id>, units: set<Id>) {
    forall id :: id in products ==>
      products[id].company in companies && products[id].baseUnit in units && products[id].allowedUnits <= units
  }

  ghost predicate OrdersIn(orders: map<Id, ProductionOrder>, companies: set<Id>, products: set<Id>) {
    forall id :: id in orders ==> orders[id].company in companies && orders[id].outputProduct in products
  }

  ghost predicate InputsIn(inputs: map<Id, ProductionInput>, orders: set<Id>, products: set<Id>, units: set<Id>) {
    forall id :: id in inputs ==>
      inputs[id].order in orders && inputs[id].rawMaterial in products && inputs[id].unit in units
  }

  ghost predicate SalesIn(sales: map<Id, Sale>, companies: set<Id>, clients: set<Id>) {
    forall id :: id in sales ==> sales[id].company in companies && sales[id].client in clients
  }

  ghost predicate SaleItemsIn(items: map<Id, SaleItem>, sales: set<Id>, products: set<Id>, units: set<Id>) {
    forall id :: id in items ==>
      items[id].sale in sales && items[id].product in products && items[id].unit in units
  }

  ghost predicate PurchasesIn(purchases: map<Id, Purchase>, companies: set<Id>, vendors: set<Id>) {
    forall id :: id in purchases ==> purchases[id].company in companies && purchases[id].vendor in vendors
  }

  ghost predicate PurchaseItemsIn(items: map<Id, PurchaseItem>, purchases: set<Id>, products: set<Id>, units: set<Id>) {
    forall id :: id in items ==>
      items[id].purchase in purchases && items[id].product in products && items[id].unit in units
  }

  /** Every non-null foreign key of the store names a stored record. */
  ghost predicate Linked(s: Store) {
    && UsersIn(s.users, s.companies.Keys)
    && ClientsIn(s.clients, s.companies.Keys)
    && VendorsIn(s.vendors, s.companies.Keys)
    && UnitsIn(s.units, s.companies.Keys)
    && ProductsIn(s.products, s.companies.Keys, s.units.Keys)
    && OrdersIn(s.orders, s.companies.Keys, s.products.Keys)
    && InputsIn(s.inputs, s.orders.Keys, s.products.Keys, s.units.Keys)
    && SalesIn(s.sales, s.companies.Keys, s.clients.Keys)
    && SaleItemsIn(s.saleItems, s.sales.Keys, s.products.Keys, s.units.Keys)
    && PurchasesIn(s.purchases, s.companies.Keys, s.vendors.Keys)
    && PurchaseItemsIn(s.purchaseItems, s.purchases.Keys, s.products.Keys, s.units.Keys)
  }

  /** The database constraints: fresh keys, unique company names and slugs,
      unique usernames, and every non-null foreign key naming a stored
      record. */
  ghost predicate Valid(s: Store) {
    Fresh(s) && CompaniesUnique(s.companies) && UsernamesUnique(s.users) && Linked(s)
  }

  /** Adding products keeps every reference to a product valid. */
  lemma ProductsGrow(orders: map<Id, ProductionOrder>, inputs: map<Id, ProductionInput>,
                     saleItems: map<Id, SaleItem>, purchaseItems: map<Id, PurchaseItem>,
                     companies: set<Id>, orderKeys: set<Id>, sales: set<Id>, purchases: set<Id>,
                     units: set<Id>, products: set<Id>, products': set<Id>)
    requires products <= products'
    requires OrdersIn(orders, companies, products) && InputsIn(inputs, orderKeys, products, units)
    requires SaleItemsIn(saleItems, sales, products, units) && PurchaseItemsIn(purchaseItems, purchases, products, units)
    ensures OrdersIn(orders, companies, products') && InputsIn(inputs, orderKeys, products', units)
    ensures SaleItemsIn(saleItems, sales, products', units) && PurchaseItemsIn(purchaseItems, purchases, products', units)
  {
  }

  /** Adding units keeps every reference to a unit valid. */
  lemma UnitsGrow(products: map<Id, Product>, inputs: map<Id, ProductionInput>,
                  saleItems: map<Id, SaleItem>, purchaseItems: map<Id, PurchaseItem>,
                  companies: set<Id>, orders: set<Id>, sales: set<Id>, purchases: set<Id>,
                  productKeys: set<Id>, units: set<Id>, units': set<Id>)
    requires units <= units'
    requires ProductsIn(products, companies, units) && InputsIn(inputs, orders, productKeys, units)
    requires SaleItemsIn(saleItems, sales, productKeys, units) && PurchaseItemsIn(purchaseItems, purchases, productKeys, units)
    ensures ProductsIn(products, companies, units') && InputsIn(inputs, orders, productKeys, units')
    ensures SaleItemsIn(saleItems, sales, productKeys, units') && PurchaseItemsIn(purchaseItems, purchases, productKeys, units')
  {
  }

  /** `table` with `rows[k]` inserted under key `first + k`, the way a loop of
      `objects.create` calls fills consecutive fresh keys. */
  function AppendRows<T>(table: map<Id, T>, first: Id, rows: seq<T>): (r: map<Id, T>)
    requires KeysBelow(table, first)
    ensures forall id :: id in table ==> id in r && r[id] == table[id]
    ensures forall id :: first <= id < first + |rows| ==> id in r && r[id] == rows[id - first]
    ensures forall id :: id in r ==> id in table || first <= id < first + |rows|
  {
    if |rows| == 0 then table
    else
      var prefix := rows[..|rows| - 1];
      var prev := AppendRows(table, first, prefix);
      assert forall k :: 0 <= k < |prefix| ==> prefix[k] == rows[k];
      prev[first + |rows| - 1 := rows[|rows| - 1]]
  }
}
