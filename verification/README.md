# Inventory backend: a Dafny model of its core

The system is a multi-tenant inventory backend. Companies own users, clients, vendors, units, products, sales, purchases and production orders. Seven REST viewsets expose these records. This project models the part of the backend that holds logic:

- **Purchase creation** (`PurchaseSerializer.create`). It inserts the purchase, then one purchase item per line. It accumulates `price * quantity` into the total and adds `quantity * unit.conversion_factor` to the stock of the line's product. Finally it saves the total.
- **Production order creation** (`ProductionOrderSerializer.create`). It inserts the order and one production input per element. It touches no stock.
- **The record store** of `inventory/models.py`. Each model is a datatype and each table is a map from primary key to record. The model also covers field defaults and the `on_delete` rules (CASCADE, PROTECT, SET_NULL) that the destroy action runs into.
- **Tenant scoping and permissions.** The permission classes `IsAuthenticated`, `IsCompanyMember` and `IsCompanyMemberOrCreate` are combined per viewset, and the framework runs them in order. Every `get_queryset` filters by `request.user.company`. `perform_create` stamps the caller's company on product, sale, purchase and production order creation.
- **The viewsets' own serializers.** `inventory/views.py` re-declares `PurchaseSerializer` and `ProductionOrderSerializer`, and the viewsets use these. They are modelled as loops with invariants, and each is proved to write exactly what the functional model of the serializers module writes. Both layers model the corrected nested creation: as written, every nested item or input fails (see Findings).

Modules, one file each:

- `Base`: keys, `Option`, the `Error` outcomes, `Result`.
- `Models`: records and the store.
  - The database invariant `Valid` has four parts: fresh keys, unique company name and slug, unique usernames, and every foreign key resolved. Rows below that say an operation "keeps `Valid`" mean these four.
  - `AppendRows` describes a loop of `objects.create` calls. Its rows get fresh keys in input order.
  - All tables draw keys from one shared counter, `nextId`.
- `Ledger`: line totals and the stock each line adds.
- `Purchases`, `Production`: the two nested creations.
- `Records`: single-row creations of products, units, vendors and clients.
- `Tenancy`: companies and users.
- `Deletion`: the delete rules.
- `Permissions`, `Views`: the request layer.
- `ViewSerializers`: the loop versions of the two nested creations.

Decimal fields are Dafny `real`, so arithmetic is exact. A UUID the model would generate (`sku`, `receipt_number`, `invoice_number`) is a parameter of the operation that needs it.

On these points the model follows the code as it stands:

- A sale is never created. `SaleSerializer` has a nested `items` list and no `create` of its own, so the framework's default create refuses it. No total is computed for it and no stock moves.
- Production orders change no stock.
- Vendor, client and unit creation keep the company given in the request, which can be any stored company. Nothing stops a line from naming another company's product, unit or vendor.
- Nothing is transactional: the code has no atomic block.

## Model

| member | source | states |
|---|---|---|
| Models.AppendRows | inventory/serializers.py:71-72 | A loop of inserts under consecutive keys keeps every old row, puts row `k` under key `first + k`, and adds no other key |
| Ledger.Restock | inventory/serializers.py:71-75 | Applying the lines one at a time keeps every product key and every field but stock; each product's stock grows by exactly `Gain`, the sum of `quantity * conversion_factor` over the lines naming it |
| Ledger.LineTotalAppend | inventory/serializers.py:70-73 | The running total over two consecutive batches of lines is the sum of their totals |
| Ledger.GainUnnamed | inventory/serializers.py:74 | A product that no line names gains nothing |
| Ledger.GainSingle | inventory/serializers.py:74 | A product named by exactly one line gains that line's quantity times its unit's conversion factor |
| Ledger.GainOneHop | inventory/serializers.py:74 | Conversion is one hop: the gain depends only on the conversion factors of the units the lines name, never on their base units |
| Ledger.RestockOneProduct | inventory/serializers.py:74-75 | Seen from one product: if no line names it, its record is unchanged; if exactly one line names it, its stock grows by that line's converted quantity |
| Purchases.CreatePurchase | inventory/serializers.py:67-78 | Succeeds exactly when the vendor, every line's product and unit, and the company exist; a missing vendor, product or unit is a validation error, a missing company an integrity error |
| Purchases.PurchaseRecorded | inventory/serializers.py:67-78 | The purchase gets a key no purchase had, its total is the in-order sum of `price * quantity`, its receipt number is the generated UUID, and no other purchase changes |
| Purchases.PurchaseItemsCreated | inventory/serializers.py:71-72 | Each line becomes one new item under its own fresh key, in input order, linked to the new purchase and carrying the line's product, quantity, unit and price |
| Purchases.PurchaseKeepsOldItems | inventory/serializers.py:71-72 | Existing items are unchanged and the only new keys are those of the new items |
| Purchases.PurchaseOwnsOnlyNewItems | inventory/serializers.py:72 | In a linked store, the new items are the only items of the new purchase |
| Purchases.PurchaseRestocks | inventory/serializers.py:74-75 | Only stock changes in the product table, and each product gains exactly the converted quantities of its lines |
| Purchases.PurchaseStockEffect | inventory/serializers.py:74-75 | A product named by no line keeps its stock; one named by a single line gains `quantity * conversion_factor` |
| Purchases.PurchaseTouchesOnlyItsTables | inventory/serializers.py:67-78 | Purchase creation changes only the purchase, item and product tables and the key counter |
| Purchases.EmptyPurchase | inventory/serializers.py:70-78 | With no lines the purchase is created with total 0, and neither items nor stock change |
| Purchases.PurchaseExample | inventory/serializers.py:67-78 | Buying 2000 g at 5.00, with g = 0.001 kg, of a product holding 10 kg records total 10000.00 and leaves 12 kg in stock |
| Purchases.PurchaseKeepsValid | inventory/models.py:159-171 | Purchase creation keeps `Valid` |
| Purchases.PurchaseWithItemsAsWrittenFails | inventory/serializers.py:54-72 | As written, a purchase with at least one item always fails, with a TypeError once validation has passed |
| Purchases.EmptyPurchaseAsWritten | inventory/serializers.py:67-78 | As written and corrected agree on a purchase with no items |
| Production.CreateProductionOrder | inventory/serializers.py:87-93 | Succeeds exactly when the output product, every raw material and unit, and the company exist, and every input carries `planned_quantity` and `actual_used`. A missing record is a validation error. A missing company or quantity is an integrity error: those two columns are not nullable and have no default (inventory/models.py:138-139) |
| Production.ProductionOrderRecorded | inventory/models.py:113-127 | The order gets a fresh key with the given company and output product; status defaults to PLANNED and the three quantities default to 0 |
| Production.ProductionInputsCreated | inventory/serializers.py:90-91 | Each element becomes one new input under its own fresh key, in input order, linked to the new order |
| Production.ProductionInputDefaults | inventory/models.py:140-141 | Each new input has wastage 0 and quality GOOD unless its element supplies them |
| Production.ProductionKeepsOldInputs | inventory/serializers.py:90-91 | Existing inputs are unchanged and the only new keys are those of the new inputs |
| Production.ProductionOwnsOnlyNewInputs | inventory/serializers.py:91 | In a linked store, the new inputs are the only inputs of the new order |
| Production.ProductionLeavesStock | inventory/serializers.py:87-93 | Production order creation leaves every product, so every stock, unchanged and writes only the order and input tables |
| Production.ProductionKeepsValid | inventory/models.py:113-143 | Production order creation keeps `Valid` |
| Production.ProductionWithInputsAsWrittenFails | inventory/serializers.py:42-91 | As written, an order with at least one input always fails, with a TypeError once validation has passed |
| Production.EmptyProductionAsWritten | inventory/serializers.py:87-93 | As written and corrected agree on an order with no inputs |
| Records.InsertProduct | inventory/models.py:101-111 | The insert succeeds exactly when the base unit is non-null and stored and the company is stored; otherwise an integrity error |
| Records.ProductInserted | inventory/models.py:104-111 | The new product has stock 0, the generated `sku`, no allowed units, and reorder level and prices 0 unless supplied; no other row changes |
| Records.InsertProductKeepsValid | inventory/models.py:101-111 | Inserting a product keeps `Valid` |
| Records.ProductCreationAsWrittenFails | inventory/serializers.py:10-17 | As written, product creation fails for every request and store |
| Records.CreateProduct | inventory/serializers.py:10-17 | Corrected creation succeeds exactly when the requested base unit and the company exist; a missing base unit is a validation error |
| Records.ProductCreated | inventory/models.py:104-111 | The corrected creation stores the requested base unit, the caller's company and stock 0 |
| Records.ProductReadOnlyFields | inventory/serializers.py:17 | The request's `company`, `sku` and `stock` have no effect on the outcome |
| Records.CreateUnit | inventory/models.py:83-99 | Unit creation succeeds exactly when the company and any given base unit exist |
| Records.UnitCreated | inventory/models.py:87-99 | A new unit has conversion factor 1 and no base unit unless given; no other row changes |
| Records.UnitKeepsValid | inventory/models.py:83-99 | Creating a unit keeps `Valid` |
| Records.CreateVendor | inventory/models.py:69-71 | Vendor creation succeeds exactly when the company exists |
| Records.VendorCreated | inventory/models.py:69-71 | The vendor is stored under a fresh key and nothing else changes |
| Records.VendorKeepsValid | inventory/models.py:69-71 | Creating a vendor keeps `Valid` |
| Records.CreateClient | inventory/models.py:55-57 | Client creation succeeds exactly when the company exists |
| Records.ClientCreated | inventory/models.py:55-57 | The client is stored under a fresh key and nothing else changes |
| Records.ClientKeepsValid | inventory/models.py:55-57 | Creating a client keeps `Valid` |
| Tenancy.CreateCompany | inventory/models.py:8-10 | A company is created exactly when no stored company has its name or its slug |
| Tenancy.CompanyCreated | inventory/models.py:8-10 | The company is stored under a fresh key and nothing else changes |
| Tenancy.CreateCompanyKeepsUnique | inventory/models.py:9-10 | Company names and slugs stay unique across all companies |
| Tenancy.CreateCompanyKeepsValid | inventory/models.py:8-10 | Creating a company keeps `Valid` |
| Tenancy.CreateUser | inventory/models.py:29-36 | A user is created exactly when the username is free and the company exists |
| Tenancy.UserCreated | inventory/models.py:35-36 | The user belongs to the given company with role STAFF unless one is given; no other row changes |
| Tenancy.CreateUserKeepsUnique | inventory/models.py:29 | Usernames stay unique across all users after a creation |
| Tenancy.TakenUsernameBreaksUnique | inventory/models.py:29 | The username check is needed: a user stored under a taken username would break uniqueness |
| Tenancy.CreateUserKeepsValid | inventory/models.py:29-36 | Creating a user keeps `Valid` |
| Deletion.DeleteSale | inventory/models.py:152-153 | Deleting a sale removes exactly that sale and exactly its own items |
| Deletion.SaleDeleted | inventory/models.py:152-153 | Remaining sales and items are unchanged and no other table changes |
| Deletion.DeleteSaleKeepsValid | inventory/models.py:145-157 | Deleting a sale keeps `Valid` |
| Deletion.DeletePurchase | inventory/models.py:166-167 | Deleting a purchase removes exactly that purchase and exactly its own items |
| Deletion.PurchaseDeleted | inventory/models.py:166-167 | Remaining purchases and items are unchanged, and no stock is taken back |
| Deletion.DeletePurchaseKeepsValid | inventory/models.py:159-171 | Deleting a purchase keeps `Valid` |
| Deletion.DeleteProductionOrder | inventory/models.py:136 | Deleting an order removes exactly that order and exactly its own inputs |
| Deletion.ProductionOrderDeleted | inventory/models.py:136 | Remaining orders and inputs are unchanged and no other table changes |
| Deletion.DeleteProductionOrderKeepsValid | inventory/models.py:129-143 | Deleting an order keeps `Valid` |
| Deletion.DeleteVendor | inventory/models.py:161 | Deleting a vendor is refused exactly when some purchase names it |
| Deletion.VendorDeleted | inventory/models.py:161 | A successful deletion removes the vendor and nothing else |
| Deletion.DeleteVendorIffUnreferenced | inventory/models.py:161 | In a linked store, a vendor can be deleted exactly when every purchase still resolves without it |
| Deletion.DeleteVendorKeepsValid | inventory/models.py:161 | Deleting a vendor keeps `Valid` |
| Deletion.DeleteClient | inventory/models.py:147 | Deleting a client is refused exactly when some sale names it |
| Deletion.ClientDeleted | inventory/models.py:147 | A successful deletion removes the client and nothing else |
| Deletion.DeleteClientIffUnreferenced | inventory/models.py:147 | In a linked store, a client can be deleted exactly when every sale still resolves without it |
| Deletion.DeleteClientKeepsValid | inventory/models.py:147 | Deleting a client keeps `Valid` |
| Deletion.DeleteProduct | inventory/models.py:123-168 | Deleting a product is refused exactly when a production output, raw material, sale item or purchase item names it |
| Deletion.ProductDeleted | inventory/models.py:101-111 | A successful deletion removes the product, with its allowed-unit links, and nothing else |
| Deletion.DeleteProductIffUnreferenced | inventory/models.py:123-168 | In a linked store, a product can be deleted exactly when every reference to a product still resolves without it |
| Deletion.DeleteProductKeepsValid | inventory/models.py:123-168 | Deleting a product keeps `Valid` |
| Deletion.DeleteUnit | inventory/models.py:106-170 | Deleting a unit is refused exactly when a product's base unit, a production input, a sale item or a purchase item names it |
| Deletion.UnitDeleted | inventory/models.py:87-111 | A successful deletion removes the unit; units derived from it keep every field but `base_unit`, which becomes null; products lose only the allowed-unit link |
| Deletion.DeleteUnitIffUnreferenced | inventory/models.py:106-170 | In a linked store, a unit can be deleted exactly when every reference to a unit still resolves without it |
| Deletion.DeleteUnitKeepsValid | inventory/models.py:87-111 | Deleting a unit keeps `Valid`, including the base units of the remaining units |
| Permissions.FirstRefusal | inventory/views.py:72 | No refusal exactly when every check allows; otherwise the refusal is that of the first check that does not allow |
| Permissions.EarliestRefusalWins | inventory/views.py:72 | The first check that does not allow decides the error, whatever the later checks say |
| Permissions.CheckPermissions | inventory/permissions.py:7-11 | The request passes exactly when every class's `has_permission` allows; otherwise the first refusal |
| Permissions.CheckObjectPermissions | inventory/permissions.py:3-5 | The object passes exactly when every class's `has_object_permission` allows; otherwise the first refusal |
| Permissions.ObjectAccessIffSameCompany | inventory/permissions.py:4-5 | `IsCompanyMember` allows an object exactly when its company is the user's |
| Permissions.CreateAllowedIffMember | inventory/permissions.py:9-10 | A create passes `IsCompanyMemberOrCreate` exactly for an authenticated caller, whose company is a non-null foreign key and so never `None`; for the anonymous user it raises |
| Permissions.NonCreatePasses | inventory/permissions.py:11 | Every non-create action passes `IsCompanyMemberOrCreate` |
| Permissions.OneLevelEach | inventory/permissions.py:3-11 | `IsCompanyMember` never refuses a request and `IsCompanyMemberOrCreate` never refuses an object |
| Permissions.EveryUserMayCreate | inventory/permissions.py:9-10 | Since `CustomUser.company` is a non-null foreign key (inventory/models.py:35), every stored user may create |
| Views.PermissionOutcomes | inventory/views.py:10-106 | On products and sales, exactly authenticated callers pass the request checks, and an anonymous caller gets 401. On the other five, every non-create action passes. A create passes exactly for an authenticated caller, and an anonymous create raises. On all seven, the object check passes exactly when the record belongs to the user's company, and otherwise refuses it with 403; through the views, another company's record is 404 before that check is reached (`Views.OtherTenantNotFound`) |
| Views.ListView | inventory/views.py:12-109 | A list succeeds exactly for an authenticated caller and returns exactly the records of the caller's company; anonymous callers get 401 on products and sales and an attribute error elsewhere |
| Views.GetObject | inventory/views.py:74-75 | A detail lookup succeeds exactly when the record belongs to the caller's company; any other user gets 404 |
| Views.ObjectPermissionRedundant | inventory/permissions.py:4-5 | Every record in the caller's queryset passes the object permission |
| Views.OtherTenantNotFound | inventory/views.py:12-109 | A record of another company is reported as not found, for every viewset and detail action |
| Views.DestroyView | inventory/views.py:70-75 | A deletion happens only to a record of the caller's company; a failed lookup is the outcome |
| Views.DestroyKeepsValid | inventory/views.py:70-109 | Every deletion through the views keeps `Valid` |
| Views.CreateView | inventory/views.py:15-26 | Creation needs an authenticated caller; anonymous callers get 401 on products and sales and an attribute error elsewhere. A sale never gets created: for an authenticated caller it fails validation unless its company and client exist and every nested item names a stored product, unit and sale, and otherwise the framework refuses the nested write |
| Views.ReadOnlyTotalAndNumber | inventory/views.py:40 | The `total` and invoice or receipt number a caller sends with a sale or purchase have no effect |
| Views.CreateStampsCompany | inventory/views.py:77-78 | Product, purchase and production order creation stamp the caller's company, whatever the request says |
| Views.CreateKeepsRequestCompany | inventory/views.py:90-109 | Vendor, client and unit creation keep the request's company |
| Views.CrossTenantCreation | inventory/views.py:90-109 | Any user may create a vendor or client for any stored company |
| Views.CreateKeepsValid | inventory/views.py:70-109 | Every creation through the views keeps `Valid` |
| ViewSerializers.PurchaseLoop | inventory/views.py:45-50 | The loop leaves the item table, total and product table that the functional model assigns to the whole line list |
| ViewSerializers.WritePurchase | inventory/views.py:44-52 | Inserting with total 0, running the loop and saving the total writes the same store as the serializers module's version |
| ViewSerializers.CreatePurchaseInView | inventory/views.py:42-53 | The views-local purchase creation has exactly the outcome of the serializers module's version, with the nested-item defect corrected |
| ViewSerializers.ProductionLoop | inventory/views.py:65-66 | The loop leaves the input table the functional model assigns to the whole input list |
| ViewSerializers.WriteProductionOrder | inventory/views.py:64-66 | Inserting the order and running the loop writes the same store as the serializers module's version, with no product touched |
| ViewSerializers.CreateProductionOrderInView | inventory/views.py:62-68 | The views-local production order creation has exactly the outcome of the serializers module's version, with the nested-input defect corrected |

## Left out

- URL routing and token endpoints (api/urls.py) are framework plumbing and are not modelled.
- Request parsing and field validation are not modelled. A request arrives as typed, validated data, and only "does the referenced record exist" is checked. There are three exceptions. The as-written members under Findings model the nested parent key. A sale's nested items carry their own `sale` key, which must name a stored sale. Production inputs may omit `planned_quantity` and `actual_used`, and the insert then fails.
- Primary keys: the model draws every key from one counter shared by all tables, whereas the database keeps one sequence per table. Only freshness and input order of the new rows are claimed. The literal keys (`pid + 1 + k` for purchase items, `oid + 1 + k` for production inputs) describe the model's numbering, not the program's.
- Transactions and rollback are not modelled. A failed operation is a `Failure` with no store. The rows the code has already written before a later step fails are not tracked. Examples are the purchase row before a failing item insert, and earlier items before a failing later one.
- Purchases.CreatePurchaseAsWritten: does not carry the purchase row that `Purchase.objects.create` has written before the first item raises, for the reason above.
- Production.CreateProductionOrderAsWritten: likewise, does not carry the order row written before the first input raises.
- Lines naming the same product twice are not modelled as the code runs them. The model applies each line's increment to the product's current stock, one line after another. Each line's `item.product` may instead be a separate instance read at validation time, in which case later saves overwrite earlier ones. Which one happens is not visible in the code.
- Concurrency and lost updates on `stock` are not modelled; the code has no locking.
- DecimalField quantisation (`max_digits`, `decimal_places`) on save is not modelled; arithmetic is exact.
- Clocks (`created_at`, `production_date`, `timestamp`) are not modelled. UUID generation is an operation parameter.
- Contact, image, email and URL fields, `__str__`, and the auth framework's user fields other than the username are not modelled.
- Updates (PUT, PATCH) are not modelled as field changes. Their access path, the permission checks and the company-scoped lookup, is modelled by `Views.GetObject`.
- Company and user deletion are not modelled. Several CASCADE chains end in PROTECT references, and no viewset exposes either deletion.
- Sale stock decrement, production stock debit and credit, status transition rules and unit-cycle checks are not modelled, because the code implements none of them.
- Views.CreateView: the contract states only the access outcome, and for a sale the error it fails with. Product, purchase and production order creation use the corrected members `Records.CreateProduct`, `Purchases.CreatePurchase` and `Production.CreateProductionOrder`. So a product with a base unit, a purchase with items and an order with inputs succeed here, although the code as written refuses each of them (see Findings). What each creation writes is stated by the lemmas it delegates to: `Views.CreateStampsCompany`, `Views.CreateKeepsRequestCompany`, and the creation lemmas of `Records`, `Purchases` and `Production`.
- ViewSerializers.CreatePurchaseInView: models the views-local serializer with the nested-item defect corrected. As written, every purchase with at least one item fails (inventory/views.py:29-32, 47).
- ViewSerializers.CreateProductionOrderInView: models the views-local serializer with the nested-input defect corrected. As written, every order with at least one input fails (inventory/views.py:56, 66).
- Views.DestroyView: the contract states only the access outcome. What each deletion does is stated by the `Deletion` members it calls.

## Findings

| source | as written | input that shows it | evidently intended | confidence | as-written member | corrected member |
|---|---|---|---|---|---|---|
| inventory/serializers.py:11 | `base_unit` is declared as a read-only nested unit serializer, so the caller's base unit never reaches `Product.objects.create` and the non-null `base_unit` column receives NULL | any product create request, for instance one naming an existing unit as base unit | `base_unit` writable by primary key, so the product is created with the requested base unit | high, not executed | Records.ProductCreationAsWrittenFails | Records.CreateProduct |
| inventory/serializers.py:54-72 | `PurchaseItemSerializer` lists every field, so a nested item must carry `purchase`. `PurchaseItem.objects.create(purchase=purchase, **item_data)` then passes `purchase` twice | a purchase with one item whose `purchase` names a stored purchase (without it, validation fails) | items without a parent key, each linked to the new purchase | medium, not executed | Purchases.PurchaseWithItemsAsWrittenFails | Purchases.PurchaseItemsCreated |
| inventory/views.py:29-53 | The copy of `PurchaseItemSerializer` and `PurchaseSerializer` that the purchase viewset uses has the same defect: the item serializer lists every field, and line 47 passes `purchase` twice | the same purchase with one item | the same | medium, not executed | Purchases.PurchaseWithItemsAsWrittenFails | ViewSerializers.CreatePurchaseInView |
| inventory/serializers.py:42-91 | `ProductionInputSerializer` lists every field, so a nested input must carry `production_order`. `ProductionInput.objects.create(production_order=order, **input_data)` then passes it twice | an order with one input whose `production_order` names a stored order | inputs without a parent key, each linked to the new order | medium, not executed | Production.ProductionWithInputsAsWrittenFails | Production.ProductionInputsCreated |
| inventory/views.py:55-68 | The copy of `ProductionOrderSerializer` that the production order viewset uses nests the same all-fields `ProductionInputSerializer`, and line 66 passes `production_order` twice | the same order with one input | the same | medium, not executed | Production.ProductionWithInputsAsWrittenFails | ViewSerializers.CreateProductionOrderInView |
