/** The seven viewsets of inventory/views.py as the router exposes them: each
    runs its permission classes, scopes every lookup to the caller's company,
    and on create either stamps the caller's company or keeps the one in the
    request. */
module Views {
  import opened Base
  import opened Models
  import opened Ledger
  import opened Records
  import opened Purchases
  import opened Production
  import opened Deletion
  import opened Permissions

  datatype ViewSet =
    | ProductViewSet | SaleViewSet | PurchaseViewSet | ProductionOrderViewSet
    | VendorViewSet | ClientViewSet | UnitViewSet

  /** `permission_classes` of each viewset, in declaration order. */
  function PermissionClasses(v: ViewSet): seq<Permission>
  {
    match v
    case ProductViewSet => [IsAuthenticated, IsCompanyMember]
    case SaleViewSet => [IsAuthenticated, IsCompanyMember]
    case _ => [IsCompanyMemberOrCreate, IsCompanyMember]
  }

  /** What each viewset's permission list lets through. On products and
      sales any authenticated caller passes the request-level checks and the
      anonymous one is told to authenticate. On the other five every action
      but create passes, and a create passes exactly for an authenticated
      caller; the anonymous one makes the check raise. On all seven a user
      reaches an object exactly when it belongs to the user's company, and
      is forbidden any other. */
  lemma PermissionOutcomes(v: ViewSet, who: Principal, action: Action, owner: Id)
    ensures v == ProductViewSet || v == SaleViewSet ==>
      && (CheckPermissions(PermissionClasses(v), who, action).None? <==> who.Member?)
      && (who.Anonymous? ==> CheckPermissions(PermissionClasses(v), who, action) == Some(NotAuthenticated))
    ensures v != ProductViewSet && v != SaleViewSet ==>
      && (CheckPermissions(PermissionClasses(v), who, action).None? <==> (action == Create ==> who.Member?))
      && (action == Create && who.Anonymous? ==> CheckPermissions(PermissionClasses(v), who, action) == Some(AttributeError))
    ensures who.Member? ==>
      (CheckObjectPermissions(PermissionClasses(v), who, owner).None? <==> who.company == owner)
    ensures who.Member? && who.company != owner ==>
      CheckObjectPermissions(PermissionClasses(v), who, owner) == Some(PermissionDenied)
  {
    var perms := PermissionClasses(v);
    assert |perms| == 2 && perms[1] == IsCompanyMember;
    if who.Member? && who.company != owner {
      assert HasObjectPermission(perms[1], who, owner) == Deny;
    }
  }

  /** The `company` of record `id` in the viewset's table; None when there is
      no such record. */
  function Owner(s: Store, v: ViewSet, id: Id): Option<Id> {
    match v
    case ProductViewSet => if id in s.products then Some(s.products[id].company) else None
    case SaleViewSet => if id in s.sales then Some(s.sales[id].company) else None
    case PurchaseViewSet => if id in s.purchases then Some(s.purchases[id].company) else None
    case ProductionOrderViewSet => if id in s.orders then Some(s.orders[id].company) else None
    case VendorViewSet => if id in s.vendors then Some(s.vendors[id].company) else None
    case ClientViewSet => if id in s.clients then Some(s.clients[id].company) else None
    case UnitViewSet => if id in s.units then Some(s.units[id].company) else None
  }

  /** The keys of the viewset's table. */
  function Keys(s: Store, v: ViewSet): set<Id> {
    match v
    case ProductViewSet => s.products.Keys
    case SaleViewSet => s.sales.Keys
    case PurchaseViewSet => s.purchases.Keys
    case ProductionOrderViewSet => s.orders.Keys
    case VendorViewSet => s.vendors.Keys
    case ClientViewSet => s.clients.Keys
    case UnitViewSet => s.units.Keys
  }

  /** `get_queryset`: `objects.filter(company=request.user.company)`. */
  function Queryset(s: Store, v: ViewSet, company: Id): set<Id> {
    set id | id in Keys(s, v) && Owner(s, v, id) == Some(company)
  }

  /** The list action: the permission checks, then the queryset, whose
      filter reads `request.user.company` and so raises for the anonymous
      user. */
  function ListView(s: Store, v: ViewSet, who: Principal): (r: Result<set<Id>>)
    ensures r.Success? <==> who.Member?
    ensures r.Success? ==> forall id :: id in r.value <==> Owner(s, v, id) == Some(who.company)
    ensures r.Failure? ==> r.error == (if v == ProductViewSet || v == SaleViewSet then NotAuthenticated else AttributeError)
  {
    match CheckPermissions(PermissionClasses(v), who, List)
    case Some(e) => Failure(e)
    case None =>
      if who.Anonymous? then Failure(AttributeError)
      else Success(Queryset(s, v, who.company))
  }

  /** The actions that look up one record. */
  predicate DetailAction(action: Action) {
    action == Retrieve || action == Update || action == PartialUpdate || action == Destroy
  }

  /** `get_object` after the permission checks: the record is looked up in
      the caller's queryset (404 when it is not there), and then the object
      permissions run. */
  function GetObject(s: Store, v: ViewSet, who: Principal, action: Action, id: Id): (r: Result<Id>)
    requires DetailAction(action)
    ensures r.Success? <==> who.Member? && Owner(s, v, id) == Some(who.company)
    ensures r.Success? ==> r.value == id
    ensures r.Failure? && who.Member? ==> r.error == NotFound
    ensures r.Failure? && who.Anonymous? ==>
      r.error == (if v == ProductViewSet || v == SaleViewSet then NotAuthenticated else AttributeError)
  {
    match CheckPermissions(PermissionClasses(v), who, action)
    case Some(e) => Failure(e)
    case None =>
      if who.Anonymous? then Failure(AttributeError)
      else if id !in Queryset(s, v, who.company) then Failure(NotFound)
      else
        match CheckObjectPermissions(PermissionClasses(v), who, Owner(s, v, id).value)
        case Some(e) => Failure(e)
        case None => Success(id)
  }

  /** Scoping makes the object permission redundant: every record in the
      caller's queryset passes it. */
  lemma ObjectPermissionRedundant(s: Store, v: ViewSet, who: Principal, id: Id)
    requires who.Member? && id in Queryset(s, v, who.company)
    ensures Owner(s, v, id).Some?
    ensures CheckObjectPermissions(PermissionClasses(v), who, Owner(s, v, id).value).None?
  {
  }

  /** Tenant isolation: a record of another company is not found, for every
      viewset and every detail action, whatever its key. */
  lemma OtherTenantNotFound(s: Store, v: ViewSet, u: CustomUser, action: Action, id: Id)
    requires DetailAction(action) && id in Keys(s, v) && Owner(s, v, id) != Some(u.company)
    ensures GetObject(s, v, PrincipalOf(u), action, id) == Failure(NotFound)
  {
  }

  /** The destroy action: look the record up, then apply its model's delete
      rules. */
  function DestroyView(s: Store, v: ViewSet, who: Principal, id: Id): (r: Result<Store>)
    ensures r.Success? ==> who.Member? && Owner(s, v, id) == Some(who.company)
    ensures GetObject(s, v, who, Destroy, id).Failure? ==> r == Failure(GetObject(s, v, who, Destroy, id).error)
  {
    match GetObject(s, v, who, Destroy, id)
    case Failure(e) => Failure(e)
    case Success(_) =>
      match v
      case ProductViewSet => DeleteProduct(s, id)
      case SaleViewSet => Success(DeleteSale(s, id))
      case PurchaseViewSet => Success(DeletePurchase(s, id))
      case ProductionOrderViewSet => Success(DeleteProductionOrder(s, id))
      case VendorViewSet => DeleteVendor(s, id)
      case ClientViewSet => DeleteClient(s, id)
      case UnitViewSet => DeleteUnit(s, id)
  }

  /** Every deletion through the views keeps every database constraint. */
  lemma DestroyKeepsValid(s: Store, v: ViewSet, who: Principal, id: Id, s': Store)
    requires Valid(s) && DestroyView(s, v, who, id) == Success(s')
    ensures Valid(s')
  {
    match v
    case ProductViewSet => DeleteProductKeepsValid(s, id, s');
    case SaleViewSet => DeleteSaleKeepsValid(s, id);
    case PurchaseViewSet => DeletePurchaseKeepsValid(s, id);
    case ProductionOrderViewSet => DeleteProductionOrderKeepsValid(s, id);
    case VendorViewSet => DeleteVendorKeepsValid(s, id, s');
    case ClientViewSet => DeleteClientKeepsValid(s, id, s');
    case UnitViewSet => DeleteUnitKeepsValid(s, id, s');
  }

  /** A create request, already validated field by field. `company` is the
      request's own company field where the serializer has one: read-only
      for products, writable (and so validated to exist) for the others.
      `total` and `number` are the sale's or purchase's `total` and
      invoice or receipt number as the caller sent them; both are read-only
      fields. */
  /** A nested sale item as `SaleItemSerializer` validates it. The serializer
      lists every model field, so the item also carries `sale`, a required
      foreign key. */
  datatype SaleItemRequest = SaleItemRequest(line: Line, sale: Option<Id>)

  /** The sale fields pass validation: the company and client exist, and
      every item names a stored product, unit and sale. */
  predicate SaleRequestValid(s: Store, company: Id, client: Id, items: seq<SaleItemRequest>) {
    && company in s.companies && client in s.clients
    && forall i :: 0 <= i < |items| ==>
      && items[i].line.product in s.products && items[i].line.unit in s.units
      && items[i].sale.Some? && items[i].sale.value in s.sales
  }

  datatype CreateRequest =
    | NewProduct(product: ProductRequest)
    | NewSale(company: Id, client: Id, items: seq<SaleItemRequest>, total: Option<real>, number: Option<Uuid>)
    | NewPurchase(company: Id, vendor: Id, lines: seq<Line>, total: Option<real>, number: Option<Uuid>)
    | NewProductionOrder(company: Id, order: OrderData, inputs: seq<InputLine>)
    | NewVendor(company: Id, name: string)
    | NewClient(company: Id, name: string)
    | NewUnit(company: Id, unit: UnitRequest)

  function ViewSetOf(req: CreateRequest): ViewSet {
    match req
    case NewProduct(_) => ProductViewSet
    case NewSale(_, _, _, _, _) => SaleViewSet
    case NewPurchase(_, _, _, _, _) => PurchaseViewSet
    case NewProductionOrder(_, _, _) => ProductionOrderViewSet
    case NewVendor(_, _) => VendorViewSet
    case NewClient(_, _) => ClientViewSet
    case NewUnit(_, _) => UnitViewSet
  }

  /** The create action: the permission checks, then the serializer's save.
      Product, sale, purchase and production order viewsets pass
      `company=request.user.company` to save, overriding the request; vendor,
      client and unit viewsets keep the request's company. A sale never gets
      written: its serializer has a nested `items` list and no create of its
      own, so once its fields validate (each item naming a stored sale, as its
      all-fields serializer requires) the framework's create refuses it. Product, purchase and production order creation are the corrected
      ones (`CreateProduct`, `CreatePurchase`, `CreateProductionOrder`); the
      as-written behaviour is stated beside each of them. `uuid` is the UUID
      the model's default would generate. */
  function CreateView(s: Store, who: Principal, req: CreateRequest, uuid: Uuid): (r: Result<(Store, Id)>)
    requires Fresh(s)
    ensures r.Success? ==> who.Member?
    ensures who.Anonymous? ==>
      r == Failure(if ViewSetOf(req) == ProductViewSet || ViewSetOf(req) == SaleViewSet then NotAuthenticated else AttributeError)
    ensures req.NewSale? ==> r.Failure?
    ensures req.NewSale? && who.Member? ==>
      r.error == (if SaleRequestValid(s, req.company, req.client, req.items) then NestedWritesUnsupported else ValidationError)
  {
    match CheckPermissions(PermissionClasses(ViewSetOf(req)), who, Create)
    case Some(e) => Failure(e)
    case None =>
      match req
      case NewProduct(p) =>
        if who.Anonymous? then Failure(AttributeError)
        else CreateProduct(s, who.company, p, uuid)
      case NewSale(company, client, items, _, _) =>
        if !SaleRequestValid(s, company, client, items) then Failure(ValidationError)
        else Failure(NestedWritesUnsupported)
      case NewPurchase(company, vendor, lines, _, _) =>
        if company !in s.companies then Failure(ValidationError)
        else if who.Anonymous? then Failure(AttributeError)
        else CreatePurchase(s, who.company, vendor, lines, uuid)
      case NewProductionOrder(company, d, inputs) =>
        if company !in s.companies then Failure(ValidationError)
        else if who.Anonymous? then Failure(AttributeError)
        else CreateProductionOrder(s, who.company, d, inputs)
      case NewVendor(company, name) => CreateVendor(s, company, name)
      case NewClient(company, name) => CreateClient(s, company, name)
      case NewUnit(company, u) => CreateUnit(s, company, u)
  }

  /** The read-only `total` and invoice or receipt number a caller sends
      with a sale or purchase have no effect on the outcome: the purchase's
      total is computed from its lines and its number is freshly generated. */
  lemma ReadOnlyTotalAndNumber(s: Store, who: Principal, req: CreateRequest, total: Option<real>, number: Option<Uuid>, uuid: Uuid)
    requires Fresh(s) && (req.NewSale? || req.NewPurchase?)
    ensures CreateView(s, who, req.(total := total, number := number), uuid) == CreateView(s, who, req, uuid)
  {
  }

  /** Product, purchase and production order creation stamp the caller's
      company on the new record, whatever the request says. */
  lemma CreateStampsCompany(s: Store, who: Principal, req: CreateRequest, uuid: Uuid, s': Store, id: Id)
    requires Fresh(s) && CreateView(s, who, req, uuid) == Success((s', id))
    requires req.NewProduct? || req.NewPurchase? || req.NewProductionOrder?
    ensures who.Member? && Owner(s', ViewSetOf(req), id) == Some(who.company)
  {
    match req
    case NewProduct(p) =>
      ProductCreated(s, who.company, p, uuid, s', id);
    case NewPurchase(_, vendor, lines, _, _) =>
      PurchaseRecorded(s, who.company, vendor, lines, uuid, s', id);
    case NewProductionOrder(_, d, inputs) =>
      ProductionOrderRecorded(s, who.company, d, inputs, s', id);
  }

  /** Vendor, client and unit creation keep the request's company, which
      need not be the caller's. */
  lemma CreateKeepsRequestCompany(s: Store, who: Principal, req: CreateRequest, uuid: Uuid, s': Store, id: Id)
    requires Fresh(s) && CreateView(s, who, req, uuid) == Success((s', id))
    requires req.NewVendor? || req.NewClient? || req.NewUnit?
    ensures Owner(s', ViewSetOf(req), id) == Some(req.company)
  {
    match req
    case NewVendor(company, name) => VendorCreated(s, company, name, s', id);
    case NewClient(company, name) => ClientCreated(s, company, name, s', id);
    case NewUnit(company, u) => UnitCreated(s, company, u, s', id);
  }

  /** Every creation through the views keeps every database constraint. */
  lemma CreateKeepsValid(s: Store, who: Principal, req: CreateRequest, uuid: Uuid, s': Store, id: Id)
    requires Valid(s) && CreateView(s, who, req, uuid) == Success((s', id))
    ensures Valid(s')
  {
    match req
    case NewProduct(p) =>
      var company := who.company;
      assert CreateProduct(s, company, p, uuid) == Success((s', id));
      InsertProductKeepsValid(s, company, p.baseUnit, p, uuid, s', id);
    case NewPurchase(_, vendor, lines, _, _) =>
      PurchaseKeepsValid(s, who.company, vendor, lines, uuid, s', id);
    case NewProductionOrder(_, d, inputs) =>
      ProductionKeepsValid(s, who.company, d, inputs, s', id);
    case NewVendor(company, name) => VendorKeepsValid(s, company, name, s', id);
    case NewClient(company, name) => ClientKeepsValid(s, company, name, s', id);
    case NewUnit(company, u) => UnitKeepsValid(s, company, u, s', id);
  }

  /** Nothing ties a vendor, client or unit request's company to the
      caller's: any user may create one for any stored company. */
  lemma CrossTenantCreation(s: Store, u: CustomUser, company: Id, name: string, uuid: Uuid)
    requires Fresh(s) && company in s.companies
    ensures CreateView(s, PrincipalOf(u), NewVendor(company, name), uuid).Success?
    ensures CreateView(s, PrincipalOf(u), NewClient(company, name), uuid).Success?
  {
  }
}
