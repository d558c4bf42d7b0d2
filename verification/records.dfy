/** Single-row creation through the framework's default `ModelSerializer.create`:
    products, units, vendors and clients. Each inserts one row under a fresh
    key with the model's field defaults for whatever the request leaves out. */
module Records {
  import opened Base
  import opened Models

  // ----- Products ----------------------------------------------------------

  /** A product request as received. `company`, `sku` and `stock` are
      read-only in `ProductSerializer`; `baseUnit` is the primary key the
      caller wants as base unit. */
  datatype ProductRequest = ProductRequest(company: Option<Id>, name: string, sku: Option<Uuid>,
                                           description: string, baseUnit: Option<Id>, stock: Option<real>,
                                           reorderLevel: Option<real>, purchasePrice: Option<real>,
                                           salePrice: Option<real>)

  /** The row `Product.objects.create` inserts for a request, with the
      `base_unit` column value `baseUnit`. */
  function ProductOf(company: Id, baseUnit: Id, req: ProductRequest, sku: Uuid): Product {
    Product(company, req.name, sku, req.description, baseUnit, 0.0,
            req.reorderLevel.GetOr(0.0), req.purchasePrice.GetOr(0.0), req.salePrice.GetOr(0.0), {})
  }

  /** The store with product `p` inserted under the next fresh key. */
  function WithProduct(s: Store, p: Product): Store {
    s.(products := s.products[s.nextId := p], nextId := s.nextId + 1)
  }

  lemma WithProductFresh(s: Store, p: Product)
    requires Fresh(s)
    ensures Fresh(WithProduct(s, p))
  {
  }

  lemma WithProductLinked(s: Store, p: Product)
    requires Fresh(s) && Linked(s)
    requires p.company in s.companies && p.baseUnit in s.units && p.allowedUnits <= s.units.Keys
    ensures Linked(WithProduct(s, p))
  {
    var s' := WithProduct(s, p);
    ProductsGrow(s.orders, s.inputs, s.saleItems, s.purchaseItems, s.companies.Keys, s.orders.Keys, s.sales.Keys,
                 s.purchases.Keys, s.units.Keys, s.products.Keys, s'.products.Keys);
  }

  /** `Product.objects.create` with the given `base_unit` column value: the
      database refuses NULL and dangling keys, and a company that does not
      exist. */
  function InsertProduct(s: Store, company: Id, baseUnit: Option<Id>, req: ProductRequest, sku: Uuid): (r: Result<(Store, Id)>)
    requires Fresh(s)
    ensures r.Success? <==> baseUnit.Some? && baseUnit.value in s.units && company in s.companies
    ensures r.Failure? ==> r.error == IntegrityError
  {
    if baseUnit.None? || baseUnit.value !in s.units || company !in s.companies then Failure(IntegrityError)
    else Success((WithProduct(s, ProductOf(company, baseUnit.value, req, sku)), s.nextId))
  }

  /** The inserted product has a fresh key, stock 0, the generated `sku`, no
      allowed units, reorder level and prices 0 unless supplied, and the
      caller's company; no other row of any table changes. */
  lemma ProductInserted(s: Store, company: Id, baseUnit: Option<Id>, req: ProductRequest, sku: Uuid, s': Store, id: Id)
    requires Fresh(s)
    requires InsertProduct(s, company, baseUnit, req, sku) == Success((s', id))
    ensures id !in s.products && s'.products.Keys == s.products.Keys + {id}
    ensures forall k :: k in s.products ==> s'.products[k] == s.products[k]
    ensures s'.products[id].company == company && s'.products[id].sku == sku
    ensures baseUnit == Some(s'.products[id].baseUnit)
    ensures s'.products[id].stock == 0.0 && s'.products[id].allowedUnits == {}
    ensures s'.products[id].reorderLevel == (if req.reorderLevel.Some? then req.reorderLevel.value else 0.0)
    ensures s'.products[id].purchasePrice == (if req.purchasePrice.Some? then req.purchasePrice.value else 0.0)
    ensures s'.products[id].salePrice == (if req.salePrice.Some? then req.salePrice.value else 0.0)
    ensures s'.(products := s.products, nextId := s.nextId) == s
  {
  }

  /** Inserting a product keeps every database constraint. */
  lemma InsertProductKeepsValid(s: Store, company: Id, baseUnit: Option<Id>, req: ProductRequest, sku: Uuid, s': Store, id: Id)
    requires Valid(s)
    requires InsertProduct(s, company, baseUnit, req, sku) == Success((s', id))
    ensures Valid(s')
  {
    var p := ProductOf(company, baseUnit.value, req, sku);
    WithProductFresh(s, p);
    WithProductLinked(s, p);
  }

  /** Product creation as the serializer is written: `base_unit` is declared
      as a read-only nested serializer, so the request's value never reaches
      the insert and the NOT NULL column receives NULL. */
  function CreateProductAsWritten(s: Store, company: Id, req: ProductRequest, sku: Uuid): Result<(Store, Id)>
    requires Fresh(s)
  {
    InsertProduct(s, company, None, req, sku)
  }

  /** Whatever the request and store, product creation as written fails and
      writes nothing. */
  lemma ProductCreationAsWrittenFails(s: Store, company: Id, req: ProductRequest, sku: Uuid)
    requires Fresh(s)
    ensures CreateProductAsWritten(s, company, req, sku) == Failure(IntegrityError)
  {
  }

  /** Product creation with `base_unit` writable by primary key (and still
      validated to exist), the evidently intended behaviour. `company`, `sku`
      and `stock` stay read-only: the caller's values are ignored. */
  function CreateProduct(s: Store, company: Id, req: ProductRequest, sku: Uuid): (r: Result<(Store, Id)>)
    requires Fresh(s)
    ensures r.Success? <==> req.baseUnit.Some? && req.baseUnit.value in s.units && company in s.companies
    ensures r.Failure? ==>
      r.error == (if req.baseUnit.Some? && req.baseUnit.value in s.units then IntegrityError else ValidationError)
  {
    if req.baseUnit.None? || req.baseUnit.value !in s.units then Failure(ValidationError)
    else InsertProduct(s, company, req.baseUnit, req, sku)
  }

  /** The corrected creation stores the requested base unit, with stock 0
      and no allowed units. */
  lemma ProductCreated(s: Store, company: Id, req: ProductRequest, sku: Uuid, s': Store, id: Id)
    requires Fresh(s)
    requires CreateProduct(s, company, req, sku) == Success((s', id))
    ensures id !in s.products && s'.products.Keys == s.products.Keys + {id}
    ensures req.baseUnit == Some(s'.products[id].baseUnit)
    ensures s'.products[id].company == company && s'.products[id].stock == 0.0
  {
    ProductInserted(s, company, req.baseUnit, req, sku, s', id);
  }

  /** The read-only fields `company`, `sku` and `stock` of a product request
      have no effect on what is created. */
  lemma ProductReadOnlyFields(s: Store, company: Id, req: ProductRequest, req': ProductRequest, sku: Uuid)
    requires Fresh(s)
    requires req'.(company := req.company, sku := req.sku, stock := req.stock) == req
    ensures CreateProduct(s, company, req, sku) == CreateProduct(s, company, req', sku)
  {
  }

  // ----- Units -------------------------------------------------------------

  /** Validated fields of a unit request. */
  datatype UnitRequest = UnitRequest(name: string, symbol: string, baseUnit: Option<Id>, conversionFactor: Option<real>)

  /** The row `Unit.objects.create` inserts for a request. */
  function UnitOf(company: Id, req: UnitRequest): Unit {
    Unit(req.name, req.symbol, company, req.baseUnit, req.conversionFactor.GetOr(1.0))
  }

  /** The store with unit `u` inserted under the next fresh key. */
  function WithUnit(s: Store, u: Unit): Store {
    s.(units := s.units[s.nextId := u], nextId := s.nextId + 1)
  }

  lemma WithUnitFresh(s: Store, u: Unit)
    requires Fresh(s)
    ensures Fresh(WithUnit(s, u))
  {
  }

  lemma WithUnitLinked(s: Store, u: Unit)
    requires Fresh(s) && Linked(s)
    requires u.company in s.companies && (u.baseUnit.Some? ==> u.baseUnit.value in s.units)
    ensures Linked(WithUnit(s, u))
  {
    var s' := WithUnit(s, u);
    UnitsGrow(s.products, s.inputs, s.saleItems, s.purchaseItems, s.companies.Keys, s.orders.Keys, s.sales.Keys,
              s.purchases.Keys, s.products.Keys, s.units.Keys, s'.units.Keys);
    assert UnitsIn(s'.units, s'.companies.Keys);
  }

  /** Default `create` for a unit of `company`: a company or base unit that
      does not exist fails validation. */
  function CreateUnit(s: Store, company: Id, req: UnitRequest): (r: Result<(Store, Id)>)
    requires Fresh(s)
    ensures r.Success? <==> company in s.companies && (req.baseUnit.Some? ==> req.baseUnit.value in s.units)
    ensures r.Failure? ==> r.error == ValidationError
  {
    if company !in s.companies || (req.baseUnit.Some? && req.baseUnit.value !in s.units) then Failure(ValidationError)
    else Success((WithUnit(s, UnitOf(company, req)), s.nextId))
  }

  /** The new unit has conversion factor 1 and no base unit unless supplied;
      nothing else changes. */
  lemma UnitCreated(s: Store, company: Id, req: UnitRequest, s': Store, id: Id)
    requires Fresh(s)
    requires CreateUnit(s, company, req) == Success((s', id))
    ensures id !in s.units && s'.units.Keys == s.units.Keys + {id}
    ensures forall k :: k in s.units ==> s'.units[k] == s.units[k]
    ensures s'.units[id].company == company
    ensures s'.units[id].conversionFactor == (if req.conversionFactor.Some? then req.conversionFactor.value else 1.0)
    ensures s'.units[id].baseUnit == req.baseUnit
    ensures s'.(units := s.units, nextId := s.nextId) == s
  {
  }

  /** Creating a unit keeps every database constraint. */
  lemma UnitKeepsValid(s: Store, company: Id, req: UnitRequest, s': Store, id: Id)
    requires Valid(s)
    requires CreateUnit(s, company, req) == Success((s', id))
    ensures Valid(s')
  {
    WithUnitFresh(s, UnitOf(company, req));
    WithUnitLinked(s, UnitOf(company, req));
  }

  // ----- Vendors and clients -----------------------------------------------

  /** The store with vendor `v` inserted under the next fresh key. */
  function WithVendor(s: Store, v: Vendor): Store {
    s.(vendors := s.vendors[s.nextId := v], nextId := s.nextId + 1)
  }

  lemma WithVendorFresh(s: Store, v: Vendor)
    requires Fresh(s)
    ensures Fresh(WithVendor(s, v))
  {
  }

  lemma WithVendorLinked(s: Store, v: Vendor)
    requires Fresh(s) && Linked(s) && v.company in s.companies
    ensures Linked(WithVendor(s, v))
  {
    var s' := WithVendor(s, v);
    assert s'.vendors.Keys == s.vendors.Keys + {s.nextId};
    assert PurchasesIn(s'.purchases, s'.companies.Keys, s'.vendors.Keys);
  }

  /** Default `create` for a vendor of `company`. */
  function CreateVendor(s: Store, company: Id, name: string): (r: Result<(Store, Id)>)
    requires Fresh(s)
    ensures r.Success? <==> company in s.companies
    ensures r.Failure? ==> r.error == ValidationError
  {
    if company !in s.companies then Failure(ValidationError)
    else Success((WithVendor(s, Vendor(company, name)), s.nextId))
  }

  /** The vendor is stored under a fresh key, and nothing else changes. */
  lemma VendorCreated(s: Store, company: Id, name: string, s': Store, id: Id)
    requires Fresh(s)
    requires CreateVendor(s, company, name) == Success((s', id))
    ensures id !in s.vendors && s'.vendors == s.vendors[id := Vendor(company, name)]
    ensures s'.(vendors := s.vendors, nextId := s.nextId) == s
  {
  }

  /** Creating a vendor keeps every database constraint. */
  lemma VendorKeepsValid(s: Store, company: Id, name: string, s': Store, id: Id)
    requires Valid(s)
    requires CreateVendor(s, company, name) == Success((s', id))
    ensures Valid(s')
  {
    WithVendorFresh(s, Vendor(company, name));
    WithVendorLinked(s, Vendor(company, name));
  }

  /** The store with client `c` inserted under the next fresh key. */
  function WithClient(s: Store, c: Client): Store {
    s.(clients := s.clients[s.nextId := c], nextId := s.nextId + 1)
  }

  lemma WithClientFresh(s: Store, c: Client)
    requires Fresh(s)
    ensures Fresh(WithClient(s, c))
  {
  }

  lemma WithClientLinked(s: Store, c: Client)
    requires Fresh(s) && Linked(s) && c.company in s.companies
    ensures Linked(WithClient(s, c))
  {
    var s' := WithClient(s, c);
    assert s'.clients.Keys == s.clients.Keys + {s.nextId};
    assert SalesIn(s'.sales, s'.companies.Keys, s'.clients.Keys);
  }

  /** Default `create` for a client of `company`. */
  function CreateClient(s: Store, company: Id, name: string): (r: Result<(Store, Id)>)
    requires Fresh(s)
    ensures r.Success? <==> company in s.companies
    ensures r.Failure? ==> r.error == ValidationError
  {
    if company !in s.companies then Failure(ValidationError)
    else Success((WithClient(s, Client(company, name)), s.nextId))
  }

  /** The client is stored under a fresh key, and nothing else changes. */
  lemma ClientCreated(s: Store, company: Id, name: string, s': Store, id: Id)
    requires Fresh(s)
    requires CreateClient(s, company, name) == Success((s', id))
    ensures id !in s.clients && s'.clients == s.clients[id := Client(company, name)]
    ensures s'.(clients := s.clients, nextId := s.nextId) == s
  {
  }

  /** Creating a client keeps every database constraint. */
  lemma ClientKeepsValid(s: Store, company: Id, name: string, s': Store, id: Id)
    requires Valid(s)
    requires CreateClient(s, company, name) == Success((s', id))
    ensures Valid(s')
  {
    WithClientFresh(s, Client(company, name));
    WithClientLinked(s, Client(company, name));
  }
}
