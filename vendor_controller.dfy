/**
 * The gateway's vendor endpoints that combine data from the vendor and the
 * product services. The services' responses are inputs: `products` is what
 * the product service's list call returned, `vendor` the object the vendor
 * service's fetch returned.
 */
module VendorController {
  import opened Wrappers
  import opened Decimal
  import opened Routes
  import opened Hateoas
  import opened Payload
  import opened Assembler

  /** What a call throws: a Feign exception carrying its message, or a null dereference. */
  datatype Failure =
    | Feign(message: string)
    | NullPointer

  const NotBelongPrefix := "Product doesn't belong to vendor id:"
  const NotFoundPrefix := "Product not found with id: "

  predicate BelongsTo(product: Product, vendorId: nat)
    reads product
  {
    product.vendorId == Some(vendorId)
  }

  predicate AllBelongTo(products: seq<Product>, vendorId: nat)
    reads products
  {
    forall i :: 0 <= i < |products| ==> BelongsTo(products[i], vendorId)
  }

  /** Every product the vendor filter keeps has an id, so it can be assembled. */
  predicate KeptHaveIds(products: seq<Product>, vendorId: nat)
    reads products
  {
    forall i :: 0 <= i < |products| && BelongsTo(products[i], vendorId) ==> products[i].id.Some?
  }

  /** Index of the first product of another vendor (or without one); `|products|` if there is none. */
  function FirstStranger(products: seq<Product>, vendorId: nat): (k: nat)
    reads products
    ensures k <= |products|
    ensures forall j :: 0 <= j < k ==> BelongsTo(products[j], vendorId)
    ensures k < |products| ==> !BelongsTo(products[k], vendorId)
  {
    if products == [] || !BelongsTo(products[0], vendorId) then 0
    else 1 + FirstStranger(products[1..], vendorId)
  }

  /** What the vendor check throws on a product that fails it. */
  function StrangerFailure(product: Product, vendorId: nat): Failure
    reads product
  {
    if product.vendorId.None? then NullPointer else Feign(NotBelongPrefix + NatToString(vendorId))
  }

  /**
   * `getProductList`: the product stream filtered by a predicate that throws
   * on the first product of another vendor; a null vendor id throws when it
   * is dereferenced.
   */
  function ProductList(products: seq<Product>, vendorId: nat): (r: Result<seq<Product>, Failure>)
    reads products
    ensures r.Success? <==> AllBelongTo(products, vendorId)
    ensures r.Success? ==> r.value == products
    ensures r.Failure? ==> r.error == StrangerFailure(products[FirstStranger(products, vendorId)], vendorId)
  {
    if products == [] then Success([])
    else if !BelongsTo(products[0], vendorId) then Failure(StrangerFailure(products[0], vendorId))
    else
      match ProductList(products[1..], vendorId)
      case Success(rest) => Success([products[0]] + rest)
      case Failure(e) => Failure(e)
  }

  /** The products of one vendor, in list order. */
  function Owned(products: seq<Product>, vendorId: nat): (owned: seq<Product>)
    reads products
    ensures |owned| <= |products|
    ensures forall k :: 0 <= k < |owned| ==> owned[k] in products && BelongsTo(owned[k], vendorId)
    ensures forall i :: 0 <= i < |products| && BelongsTo(products[i], vendorId) ==> products[i] in owned
  {
    if products == [] then []
    else if BelongsTo(products[0], vendorId) then [products[0]] + Owned(products[1..], vendorId)
    else Owned(products[1..], vendorId)
  }

  /** Filtering keeps list order: the vendor's products of a concatenation are those of each part, in turn. */
  lemma {:induction false} OwnedOfConcat(a: seq<Product>, b: seq<Product>, vendorId: nat)
    ensures Owned(a + b, vendorId) == Owned(a, vendorId) + Owned(b, vendorId)
    decreases |a|
  {
    if a == [] {
      assert a + b == b;
    } else {
      assert (a + b)[0] == a[0];
      assert (a + b)[1..] == a[1..] + b;
      OwnedOfConcat(a[1..], b, vendorId);
    }
  }

  lemma KeptHaveIdsOfTail(products: seq<Product>, vendorId: nat)
    requires |products| > 0 && KeptHaveIds(products, vendorId)
    ensures KeptHaveIds(products[1..], vendorId)
  {
  }

  /**
   * `getProductResourceList`: the product stream filtered by vendor and mapped
   * through the product assembler; a null vendor id anywhere in the list
   * makes the whole pipeline throw.
   */
  function ProductResourceList(products: seq<Product>, vendorId: nat): (r: Result<seq<Resource<Product>>, Failure>)
    reads products
    requires KeptHaveIds(products, vendorId)
    ensures r.Failure? ==> r.error == NullPointer
  {
    if products == [] then Success([])
    else if products[0].vendorId.None? then Failure(NullPointer)
    else
      KeptHaveIdsOfTail(products, vendorId);
      match ProductResourceList(products[1..], vendorId)
      case Failure(e) => Failure(e)
      case Success(rest) =>
        if BelongsTo(products[0], vendorId) then Success([ProductResource(products[0])] + rest)
        else Success(rest)
  }

  /** The pipeline throws exactly when some product in the list has a null vendor id. */
  lemma {:induction false} ProductResourceListFails(products: seq<Product>, vendorId: nat)
    requires KeptHaveIds(products, vendorId)
    ensures ProductResourceList(products, vendorId).Failure?
        <==> exists i :: 0 <= i < |products| && products[i].vendorId.None?
    decreases |products|
  {
    if products != [] && products[0].vendorId.Some? {
      KeptHaveIdsOfTail(products, vendorId);
      ProductResourceListFails(products[1..], vendorId);
      assert forall i :: 0 < i < |products| ==> products[i] == products[1..][i - 1];
    }
  }

  /** On success the pipeline wraps exactly the vendor's products, in list order. */
  lemma {:induction false} ProductResourceListOwned(products: seq<Product>, vendorId: nat)
    requires KeptHaveIds(products, vendorId)
    requires ProductResourceList(products, vendorId).Success?
    ensures Contents(ProductResourceList(products, vendorId).value) == Owned(products, vendorId)
    decreases |products|
  {
    if products != [] {
      KeptHaveIdsOfTail(products, vendorId);
      ProductResourceListOwned(products[1..], vendorId);
      var rest := ProductResourceList(products[1..], vendorId).value;
      if BelongsTo(products[0], vendorId) {
        var resources := [ProductResource(products[0])] + rest;
        assert resources[1..] == rest;
      }
    }
  }

  /** On success every resource of the pipeline is an assembled product of the vendor. */
  lemma {:induction false} ProductResourceListAssembled(products: seq<Product>, vendorId: nat)
    requires KeptHaveIds(products, vendorId)
    requires ProductResourceList(products, vendorId).Success?
    ensures var resources := ProductResourceList(products, vendorId).value;
      forall k :: 0 <= k < |resources| ==>
        && BelongsTo(resources[k].content, vendorId)
        && resources[k].content.id.Some?
        && resources[k] == ProductResource(resources[k].content)
    decreases |products|
  {
    if products != [] {
      KeptHaveIdsOfTail(products, vendorId);
      ProductResourceListAssembled(products[1..], vendorId);
      var rest := ProductResourceList(products[1..], vendorId).value;
      if BelongsTo(products[0], vendorId) {
        var resources := [ProductResource(products[0])] + rest;
        assert forall k :: 0 < k < |resources| ==> resources[k] == rest[k - 1];
      }
    }
  }

  /**
   * On success the pipeline yields exactly the vendor's products in list
   * order, each of that vendor and each passed through the product assembler;
   * products of other vendors are dropped without error.
   */
  lemma ProductResourceListContents(products: seq<Product>, vendorId: nat)
    requires KeptHaveIds(products, vendorId)
    requires ProductResourceList(products, vendorId).Success?
    ensures var resources := ProductResourceList(products, vendorId).value;
      && Contents(resources) == Owned(products, vendorId)
      && forall k :: 0 <= k < |resources| ==>
           && BelongsTo(resources[k].content, vendorId)
           && resources[k].content.id.Some?
           && resources[k] == ProductResource(resources[k].content)
  {
    ProductResourceListOwned(products, vendorId);
    ProductResourceListAssembled(products, vendorId);
  }

  /** `findFirst` over the products whose id equals `productId`, each assembled; a null id throws when reached. */
  function FirstWithId(list: seq<Product>, productId: nat): (r: Result<Resource<Product>, Failure>)
    reads list
    ensures r.Success? ==>
      r.value.content in list && r.value.content.id == Some(productId) && r.value == ProductResource(r.value.content)
    ensures r.Failure? ==> r.error == NullPointer || r.error == Feign(NotFoundPrefix + NatToString(productId))
  {
    if list == [] then Failure(Feign(NotFoundPrefix + NatToString(productId)))
    else if list[0].id.None? then Failure(NullPointer)
    else if list[0].id.value == productId then Success(ProductResource(list[0]))
    else FirstWithId(list[1..], productId)
  }

  /**
   * `getProductByVendorIdAndProductId`: the whole product list must belong to
   * the vendor, then the first product with the requested id is assembled.
   */
  function GetProductByVendorIdAndProductId(products: seq<Product>, vendorId: nat, productId: nat): (r: Result<Resource<Product>, Failure>)
    reads products
    ensures !AllBelongTo(products, vendorId) ==>
      r == Failure(StrangerFailure(products[FirstStranger(products, vendorId)], vendorId))
    ensures r.Success? ==>
      && r.value.content in products
      && r.value.content.id == Some(productId)
      && r.value.content.vendorId == Some(vendorId)
      && r.value == ProductResource(r.value.content)
  {
    match ProductList(products, vendorId)
    case Failure(e) => Failure(e)
    case Success(list) => FirstWithId(list, productId)
  }

  /** The first product carrying the requested id is the one returned. */
  lemma {:induction false} FirstWithIdFinds(list: seq<Product>, productId: nat, i: nat)
    requires i < |list| && list[i].id == Some(productId)
    requires forall j :: 0 <= j < i ==> list[j].id.Some? && list[j].id != Some(productId)
    ensures FirstWithId(list, productId) == Success(ProductResource(list[i]))
    decreases i
  {
    if i > 0 {
      assert list[1..][i - 1] == list[i];
      FirstWithIdFinds(list[1..], productId, i - 1);
    }
  }

  /** A product without an id, met before any match, makes the lookup throw. */
  lemma {:induction false} FirstWithIdNull(list: seq<Product>, productId: nat, i: nat)
    requires i < |list| && list[i].id.None?
    requires forall j :: 0 <= j < i ==> list[j].id.Some? && list[j].id != Some(productId)
    ensures FirstWithId(list, productId) == Failure(NullPointer)
    decreases i
  {
    if i > 0 {
      assert list[1..][i - 1] == list[i];
      FirstWithIdNull(list[1..], productId, i - 1);
    }
  }

  /** With every id present and none equal to the requested one, the lookup reports "not found". */
  lemma {:induction false} FirstWithIdMissing(list: seq<Product>, productId: nat)
    requires forall j :: 0 <= j < |list| ==> list[j].id.Some? && list[j].id != Some(productId)
    ensures FirstWithId(list, productId) == Failure(Feign(NotFoundPrefix + NatToString(productId)))
    decreases |list|
  {
    if list != [] {
      assert forall j :: 0 <= j < |list[1..]| ==> list[1..][j] == list[j + 1];
      FirstWithIdMissing(list[1..], productId);
    }
  }

  /** When the whole list belongs to the vendor, the first product with the requested id is returned. */
  lemma FoundWhenAllBelong(products: seq<Product>, vendorId: nat, productId: nat, i: nat)
    requires AllBelongTo(products, vendorId)
    requires i < |products| && products[i].id == Some(productId)
    requires forall j :: 0 <= j < i ==> products[j].id.Some? && products[j].id != Some(productId)
    ensures GetProductByVendorIdAndProductId(products, vendorId, productId) == Success(ProductResource(products[i]))
  {
    FirstWithIdFinds(products, productId, i);
  }

  /** When the whole list belongs to the vendor and no product has the id, the call fails with "not found". */
  lemma NotFoundWhenAbsent(products: seq<Product>, vendorId: nat, productId: nat)
    requires AllBelongTo(products, vendorId)
    requires forall j :: 0 <= j < |products| ==> products[j].id.Some? && products[j].id != Some(productId)
    ensures GetProductByVendorIdAndProductId(products, vendorId, productId)
         == Failure(Feign("Product not found with id: " + NatToString(productId)))
  {
    FirstWithIdMissing(products, productId);
  }

  /**
   * The vendor check covers the whole list: one product of another vendor
   * aborts the lookup even when the requested product belongs to the vendor.
   */
  lemma UnrelatedProductAborts(products: seq<Product>, vendorId: nat, productId: nat, i: nat, k: nat)
    requires i < |products| && products[i].id == Some(productId) && BelongsTo(products[i], vendorId)
    requires k < |products| && products[k].vendorId.Some? && products[k].vendorId != Some(vendorId)
    requires forall j :: 0 <= j < |products| ==> products[j].vendorId.Some?
    ensures GetProductByVendorIdAndProductId(products, vendorId, productId)
         == Failure(Feign("Product doesn't belong to vendor id:" + NatToString(vendorId)))
  {
  }

  /** A null vendor id is reached by the vendor check before any other product of another vendor. */
  lemma NullVendorIdThrows(products: seq<Product>, vendorId: nat, productId: nat, k: nat)
    requires k < |products| && products[k].vendorId.None?
    requires forall j :: 0 <= j < k ==> BelongsTo(products[j], vendorId)
    ensures GetProductByVendorIdAndProductId(products, vendorId, productId) == Failure(NullPointer)
  {
  }

  /** The vendor stream mapped through the vendor assembler. */
  function VendorResources(vendors: seq<Vendor>): (resources: seq<Resource<Vendor>>)
    reads vendors
    requires forall i :: 0 <= i < |vendors| ==> vendors[i].id.Some?
    ensures |resources| == |vendors|
    ensures forall k :: 0 <= k < |vendors| ==> resources[k] == VendorResource(vendors[k])
  {
    if vendors == [] then [] else [VendorResource(vendors[0])] + VendorResources(vendors[1..])
  }

  /** `getAllVendors`: one assembled resource per vendor, in order, under a self link to the vendor collection. */
  function GetAllVendors(vendors: seq<Vendor>): (r: Resources<Resource<Vendor>>)
    reads vendors
    requires forall i :: 0 <= i < |vendors| ==> vendors[i].id.Some?
    ensures Contents(r.content) == vendors
    ensures forall k :: 0 <= k < |vendors| ==> r.content[k].links == VendorResource(vendors[k]).links
    ensures r.links == [Link("self", "/vendors")]
  {
    Resources(VendorResources(vendors), [LinkTo(AllVendors, "self")])
  }

  /**
   * `getProductsByVendorId`: the vendor's own product list is extended in
   * place with the assembled products of that vendor, and the whole list is
   * returned under a self link to the product collection.
   */
  method GetProductsByVendorId(vendor: Vendor, products: seq<Product>, vendorId: nat)
    returns (r: Result<Resources<Resource<Product>>, Failure>)
    requires KeptHaveIds(products, vendorId)
    modifies vendor
    ensures vendor.id == old(vendor.id) && vendor.name == old(vendor.name)
    ensures r.Failure? <==> exists i :: 0 <= i < |products| && products[i].vendorId.None?
    ensures r.Failure? ==> r.error == NullPointer && vendor.products == old(vendor.products)
    ensures r.Success? ==>
      && ProductResourceList(products, vendorId).Success?
      && vendor.products == old(vendor.products) + ProductResourceList(products, vendorId).value
      && Contents(vendor.products[|old(vendor.products)|..]) == Owned(products, vendorId)
      && r.value == Resources(vendor.products, [Link("self", "/products")])
  {
    ProductResourceListFails(products, vendorId);
    var appended := ProductResourceList(products, vendorId);
    if appended.Failure? {
      return Failure(appended.error);
    }
    ProductResourceListContents(products, vendorId);
    ghost var before := vendor.products;
    vendor.AddAllProducts(appended.value);
    assert vendor.products[|before|..] == appended.value;
    r := Success(Resources(vendor.products, [LinkTo(AllProducts, "self")]));
  }
}
