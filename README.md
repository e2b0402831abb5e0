# VendorApi gateway: link assembly and vendor/product aggregation

This project models the logic of the VendorApi gateway, the HTTP front of a
product service and a vendor service. It covers two parts.

- **Hypermedia link assembly.** `ProductResourceAssembler` wraps a product
  with an ordered list of (rel, href) links. `VendorResourceAssembler` does
  the same for a vendor. Every href is one of the gateway's route templates
  (`/products`, `/products/{id}`, `/vendors`, `/vendors/{id}`,
  `/vendors/{id}/products`, `/vendors/{vendor_id}/products/{product_id}`),
  with its path variables filled in in decimal.
- **Vendor/product aggregation** in the gateway's `VendorController`.
  - `getProductsByVendorId` appends, in place, the vendor's products from the
    product service to the vendor's embedded product list.
  - `getProductByVendorIdAndProductId` first requires every product in the
    list to belong to the vendor, then finds the first product with the
    requested id.
  - `getAllVendors` assembles every vendor.

Module structure:

- `Wrappers`: `Option` (Java `null`) and `Result` (a value or a thrown exception).
- `Decimal`: `NatToString`, how an id is expanded into a path, and its inverse `ParseNat`.
- `Routes`: the route templates. `Path` expands a route into its path and `Parse` resolves a path back to its route. Together they show that each link names the handler the Java code points it at.
- `Hateoas`: `Link`, `Resource` and `Resources` in the shape Spring HATEOAS gives them. Rels may repeat, so links are a sequence.
- `Payload`: the beans `Product` and `Vendor`, as classes whose setters change one field each. Every scalar field is nullable in Java and is an `Option` here. The vendor's product list is a plain `seq` field extended in place.
- `Assembler`: the two `toResource` rules.
- `VendorController`: the stream pipelines as pure functions over the product list, and `getProductsByVendorId` as a method that mutates the fetched vendor.
- `Scenarios`: concrete requests worked through the model: the situations the gateway's unit tests set up, a vendor whose products come from the product list, and the vendor-scoped lookup that a foreign product in the list aborts.

The service clients are not modelled; their answers are inputs. The product
list call gives a `seq<Product>`, and the vendor fetch gives a `Vendor`
object. A thrown `CustomFeignException` is `Failure(Feign(message))`. A
`NullPointerException` from calling `equals` on a null `Long` is
`Failure(NullPointer)`. It is kept separate because the gateway's Feign
exception handler does not catch it.

The vendor-scoped lookup fails with "Product doesn't belong to vendor id:"
at the first product of another vendor anywhere in the list
(VendorController.java:136-144). It answers "not found" only when every
product belongs to the vendor.

A product with a null vendor id makes `getProductsByVendorId` throw a null
dereference wherever it is in the list. It makes the vendor-scoped lookup
throw a null dereference only when it is the first product in the list that
is not of the vendor.

## Model

| member | source | states |
|---|---|---|
| `Decimal.NatToString` | gateway/src/main/java/com/gateway/assembler/ProductResourceAssembler.java:20 | an id expands to a canonical decimal numeral, "0" exactly for zero |
| `Decimal.ParseNatToString` | gateway/src/main/java/com/gateway/assembler/ProductResourceAssembler.java:20 | reading back an expanded id gives the id |
| `Decimal.NatToStringOfValue` | gateway/src/main/java/com/gateway/assembler/ProductResourceAssembler.java:20 | every canonical numeral is the expansion of the number it denotes |
| `Decimal.NatToStringInjective` | gateway/src/main/java/com/gateway/assembler/ProductResourceAssembler.java:20 | distinct ids expand to distinct strings |
| `Routes.Path` | gateway/src/main/java/com/gateway/controller/VendorController.java:27-120 | every route template expands to an absolute path, starting with a slash and not just the slash |
| `Routes.PathIsJoin` | gateway/src/main/java/com/gateway/controller/VendorController.java:104-120 | each route's path is its template segments, each after a slash |
| `Routes.ParsePath` | gateway/src/main/java/com/gateway/controller/VendorController.java:104-120 | every route's path resolves back to the same route and path variables |
| `Routes.PathParse` | gateway/src/main/java/com/gateway/controller/ProductController.java:21-47 | a path that resolves to a route is exactly that route's path |
| `Routes.PathInjective` | gateway/src/main/java/com/gateway/controller/VendorController.java:27-65 | two different routes never share a path |
| `Hateoas.LinkTo` | gateway/src/main/java/com/gateway/assembler/ProductResourceAssembler.java:20-30 | a `linkTo(methodOn(..)).withRel(rel)` link carries the given relation and an absolute href |
| `Hateoas.LinkToResolves` | gateway/src/main/java/com/gateway/assembler/VendorResourceAssembler.java:18-20 | the href of a link to a handler resolves back to that handler's route and path variables |
| `Payload.Product.Empty` | gateway/src/main/java/com/gateway/payload/Product.java:18-19 | the no-argument constructor leaves every field null, vendorId included |
| `Payload.Product.constructor` | gateway/src/main/java/com/gateway/payload/Product.java:21-27 | the five-argument constructor stores all five fields as given |
| `Payload.Product.SetId` | gateway/src/main/java/com/gateway/payload/Product.java:33-35 | sets the id and leaves the other four fields unchanged |
| `Payload.Product.SetName` | gateway/src/main/java/com/gateway/payload/Product.java:41-43 | sets the name and leaves the other four fields unchanged |
| `Payload.Product.SetPrice` | gateway/src/main/java/com/gateway/payload/Product.java:49-51 | sets the price and leaves the other four fields unchanged |
| `Payload.Product.SetImageUrl` | gateway/src/main/java/com/gateway/payload/Product.java:57-59 | sets the image URL and leaves the other four fields unchanged |
| `Payload.Product.SetVendorId` | gateway/src/main/java/com/gateway/payload/Product.java:65-67 | sets the vendor id and leaves the other four fields unchanged |
| `Payload.Vendor.Empty` | gateway/src/main/java/com/gateway/payload/Vendor.java:16-19 | the no-argument constructor leaves id and name null and the product list empty, not null |
| `Payload.Vendor.constructor` | gateway/src/main/java/com/gateway/payload/Vendor.java:16-24 | the two-argument constructor sets id and name and starts with an empty product list |
| `Payload.Vendor.SetId` | gateway/src/main/java/com/gateway/payload/Vendor.java:30-32 | sets the id and leaves name and products unchanged |
| `Payload.Vendor.SetName` | gateway/src/main/java/com/gateway/payload/Vendor.java:38-40 | sets the name and leaves id and products unchanged |
| `Payload.Vendor.SetProducts` | gateway/src/main/java/com/gateway/payload/Vendor.java:46-48 | replaces the product list and leaves id and name unchanged |
| `Payload.Vendor.AddAllProducts` | gateway/src/main/java/com/gateway/payload/Vendor.java:42-44 | `getProducts().addAll(more)` on the live list keeps the old list as a prefix, adds `more` after it, and leaves id and name unchanged |
| `Assembler.ProductResource` | gateway/src/main/java/com/gateway/assembler/ProductResourceAssembler.java:17-34 | the content is the input product itself. The first link is self → /products/{id}. With a vendor there are exactly three links: self, vendor → /vendors/{vid}/products, self → /vendors/{vid}/products/{id}. Without one there are exactly two: self, products → /products |
| `Assembler.ProductLinksResolve` | gateway/src/main/java/com/gateway/assembler/ProductResourceAssembler.java:19-30 | each product link resolves to the handler named in its `linkTo(methodOn(...))`, with the product's ids |
| `Assembler.ProductSelfLinkIdentifies` | gateway/src/main/java/com/gateway/assembler/ProductResourceAssembler.java:19-20 | two products whose first self links are equal have equal ids |
| `Assembler.VendorResource` | gateway/src/main/java/com/gateway/assembler/VendorResourceAssembler.java:16-21 | the content is the input vendor itself. There are exactly three links in order: self → /vendors/{id}, products → /vendors/{id}/products, vendors → /vendors |
| `Assembler.VendorLinksResolve` | gateway/src/main/java/com/gateway/assembler/VendorResourceAssembler.java:18-20 | each vendor link resolves to getVendorById, getProductsByVendorId or getAllVendors for the vendor's id |
| `Assembler.VendorLinksDependOnlyOnId` | gateway/src/main/java/com/gateway/assembler/VendorResourceAssembler.java:18-20 | vendors with equal ids get equal links, whatever their names and products |
| `VendorController.FirstStranger` | gateway/src/main/java/com/gateway/controller/VendorController.java:138-143 | the index of the first product in list order that fails the vendor check; every product before it passes |
| `VendorController.ProductList` | gateway/src/main/java/com/gateway/controller/VendorController.java:135-145 | succeeds exactly when every product belongs to the vendor, and then returns the whole list. Otherwise it throws at the first offender: a null dereference if that product's vendor id is null, else "Product doesn't belong to vendor id:" + id |
| `VendorController.Owned` | gateway/src/main/java/com/gateway/controller/VendorController.java:150 | the reference filter: it keeps exactly the products whose vendor id equals the requested one, and each kept product comes from the list |
| `VendorController.OwnedOfConcat` | gateway/src/main/java/com/gateway/controller/VendorController.java:147-153 | the filter keeps list order: filtering a concatenation gives the two filtered parts in turn |
| `VendorController.ProductResourceList` | gateway/src/main/java/com/gateway/controller/VendorController.java:147-153 | the filter-then-assemble pipeline; whatever it throws is a null dereference, never the Feign exception |
| `VendorController.ProductResourceListFails` | gateway/src/main/java/com/gateway/controller/VendorController.java:150 | the pipeline fails exactly when some product anywhere in the list has a null vendor id |
| `VendorController.ProductResourceListOwned` | gateway/src/main/java/com/gateway/controller/VendorController.java:147-153 | on success the wrapped products are exactly the vendor's products in list order |
| `VendorController.ProductResourceListAssembled` | gateway/src/main/java/com/gateway/controller/VendorController.java:147-153 | on success every resource holds a product of the vendor with an id, passed through the product assembler |
| `VendorController.ProductResourceListContents` | gateway/src/main/java/com/gateway/controller/VendorController.java:147-153 | on success the wrapped products are exactly the vendor's products in list order, each of that vendor, each with an id, and each passed through the product assembler. Products of other vendors are dropped without error |
| `VendorController.FirstWithId` | gateway/src/main/java/com/gateway/controller/VendorController.java:127-132 | a success is a product from the list, with the requested id, passed through the assembler. Any failure is a null dereference or "Product not found with id: " + id |
| `VendorController.GetProductByVendorIdAndProductId` | gateway/src/main/java/com/gateway/controller/VendorController.java:122-133 | any product of another vendor anywhere in the list aborts the call with the vendor check's failure. A success has the requested id and vendor id, comes from the list, and is assembled |
| `VendorController.FirstWithIdFinds` | gateway/src/main/java/com/gateway/controller/VendorController.java:127-131 | the first product in list order with the requested id is the one returned |
| `VendorController.FirstWithIdNull` | gateway/src/main/java/com/gateway/controller/VendorController.java:129 | a product with a null id reached before any match makes the lookup throw a null dereference |
| `VendorController.FirstWithIdMissing` | gateway/src/main/java/com/gateway/controller/VendorController.java:132 | with every id present and none equal, the lookup fails with "Product not found with id: " + id |
| `VendorController.FoundWhenAllBelong` | gateway/src/main/java/com/gateway/controller/VendorController.java:122-133 | when the whole list belongs to the vendor, the call returns the first matching product, assembled |
| `VendorController.NotFoundWhenAbsent` | gateway/src/main/java/com/gateway/controller/VendorController.java:127-132 | when the whole list belongs to the vendor and no product has the id, the call fails with "Product not found with id: " + id |
| `VendorController.UnrelatedProductAborts` | gateway/src/main/java/com/gateway/controller/VendorController.java:136-144 | one product of another vendor makes the call fail with "Product doesn't belong to vendor id:" + vendor id, even when the requested product belongs to the vendor |
| `VendorController.NullVendorIdThrows` | gateway/src/main/java/com/gateway/controller/VendorController.java:139 | a null vendor id reached by the vendor check makes the call throw a null dereference rather than the Feign exception |
| `VendorController.VendorResources` | gateway/src/main/java/com/gateway/controller/VendorController.java:52-56 | the vendor stream mapped through the vendor assembler: one resource per vendor, position by position |
| `VendorController.GetAllVendors` | gateway/src/main/java/com/gateway/controller/VendorController.java:48-62 | the collection wraps exactly the input vendors in order, each with its assembled links, under a single self link to /vendors |
| `VendorController.GetProductsByVendorId` | gateway/src/main/java/com/gateway/controller/VendorController.java:106-117 | on success the vendor's list becomes its old list followed by the assembled products of the vendor, changed in place. The appended part wraps exactly the vendor's products in list order. The result is that whole list under a single self link to /products. On a null vendor id the call fails and the vendor is untouched. Id and name never change |
| `Scenarios.ProductWithVendor` | gateway/src/test/java/com/gateway/assembler/ProductResourceAssemblerTest.java:25-44 | product 1 of vendor 1 gets /products/1 (self), /vendors/1/products (vendor), /vendors/1/products/1 (self) |
| `Scenarios.ProductWithoutVendor` | gateway/src/test/java/com/gateway/assembler/ProductResourceAssemblerTest.java:49-70 | a product built empty and filled by setters, with no vendor, gets /products/1 (self) and /products (products) |
| `Scenarios.VendorLinks` | gateway/src/test/java/com/gateway/assembler/VendorResourceAssemblerTest.java:19-37 | vendor 1 gets exactly /vendors/1 (self), /vendors/1/products (products), /vendors (vendors) |
| `Scenarios.EmbeddedProductKept` | gateway/src/test/java/com/gateway/controller/VendorControllerTest.java:181-193 | vendor 1 already embedding one link-less resource of product 1, with an empty product list, yields exactly that resource under a self link to /products |
| `Scenarios.ProductsOfVendorOne` | gateway/src/main/java/com/gateway/controller/VendorController.java:106-117 | vendor 1 with nothing embedded and one product of its own in the product list yields a one-element list with that product's three links, under a self link to /products |
| `Scenarios.OwnProductFound` | gateway/src/test/java/com/gateway/controller/VendorControllerTest.java:211-228 | with product 1 of vendor 1 as the only product, vendor 1's lookup of product 1 succeeds with that product's id, name, price, image and vendor id |
| `Scenarios.AllVendorsOne` | gateway/src/test/java/com/gateway/controller/VendorControllerTest.java:74-87 | a vendor list holding only vendor 1 gives a one-element collection of that vendor under a self link to /vendors |
| `Scenarios.ForeignProductAbortsLookup` | gateway/src/main/java/com/gateway/controller/VendorController.java:136-144 | with product 1 of vendor 1 and product 2 of vendor 2, asking vendor 1 for product 1 fails with "Product doesn't belong to vendor id:1" |

## Left out

- Service clients (`ProductClient`, `VendorClient`): these are network calls. Their answers are inputs. A `FeignException` they throw propagates unchanged and is not modelled. `getVendorWithProductsById` uses the same route as `getVendorByIdPath`, so the embedded list is whatever the vendor service sends.
- The CRUD handlers of both gateway controllers, and the product and vendor services: each passes a call through to a client or a repository and assembles the answer. There is no logic beyond the assemblers modelled here.
- `FeignExceptionHandler` and the mapping of every Feign exception to HTTP 404: framework wiring. `Failure` only says which exception is thrown.
- Host prefixes such as `http://localhost`, JSON serialisation, logging and Swagger annotations.
- Getters: each returns its field, so a field read stands for it. What the constructors and setters store is what a later read returns.
- `Long` ids are `nat`: negative ids and the 64-bit bound are not modelled.
- `BigDecimal` prices are an uninspected `Price` value.
- Assembler.ProductResource: requires a non-null product id, because how Spring HATEOAS expands a null path variable is not visible here.
- Assembler.VendorResource: requires a non-null vendor id, for the same reason.
- VendorController.ProductResourceList: requires every product it keeps to have an id, because the assembler is applied to each one. Products from the product service are persisted rows and always carry one.
- VendorController.GetProductsByVendorId: requires the same as ProductResourceList.
- VendorController.GetAllVendors: requires non-null vendor ids, because each vendor is assembled.
- VendorController.VendorResources: requires non-null vendor ids, for the same reason.
- Routes.Parse: accepts only canonical decimal path variables. Spring's `Long` conversion would also accept leading zeros, signs, hex and other spellings, and trims whitespace. It serves only to show which handler a generated link names.
- A null vendor product list: `Vendor.products` is a plain `seq`, so `setProducts(null)` followed by the `addAll` of `getProductsByVendorId` (a null dereference) is not modelled. The field initialiser makes the list non-null unless a caller sets it to null.
- Aliasing of the vendor's product list: `getProducts` returns the live `ArrayList`. Two vendors given the same list through `setProducts` would share later changes. The model keeps the list as a value owned by the vendor and captures only the in-place append through that vendor.
