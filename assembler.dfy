/** The two resource assemblers: fixed rules that attach links to a product or a vendor. */
module Assembler {
  import opened Wrappers
  import opened Decimal
  import opened Routes
  import opened Hateoas
  import opened Payload

  /**
   * `ProductResourceAssembler.toResource`: a self link to the product, then
   * either the vendor's product list and the vendor-scoped self link, or,
   * without a vendor, the product collection.
   */
  function ProductResource(product: Product): (r: Resource<Product>)
    reads product
    requires product.id.Some?
    ensures r.content == product
    ensures |r.links| == if product.vendorId.Some? then 3 else 2
    ensures r.links[0] == Link("self", "/products/" + NatToString(product.id.value))
    ensures product.vendorId.Some? ==>
      var v, p := NatToString(product.vendorId.value), NatToString(product.id.value);
      && r.links[1] == Link("vendor", "/vendors/" + v + "/products")
      && r.links[2] == Link("self", "/vendors/" + v + "/products/" + p)
    ensures product.vendorId.None? ==> r.links[1] == Link("products", "/products")
  {
    var id := product.id.value;
    var selfLink := LinkTo(ProductById(id), "self");
    match product.vendorId
    case Some(vendorId) =>
      Resource(product, [selfLink, LinkTo(VendorProducts(vendorId), "vendor"), LinkTo(VendorProduct(vendorId, id), "self")])
    case None =>
      Resource(product, [selfLink, LinkTo(AllProducts, "products")])
  }

  /** Every product link resolves to the handler the assembler names for it. */
  lemma ProductLinksResolve(product: Product)
    requires product.id.Some?
    ensures var r, id := ProductResource(product), product.id.value;
      && Parse(r.links[0].href) == Some(ProductById(id))
      && (product.vendorId.Some? ==>
            && Parse(r.links[1].href) == Some(VendorProducts(product.vendorId.value))
            && Parse(r.links[2].href) == Some(VendorProduct(product.vendorId.value, id)))
      && (product.vendorId.None? ==> Parse(r.links[1].href) == Some(AllProducts))
  {
    var id := product.id.value;
    ParsePath(ProductById(id));
    ParsePath(AllProducts);
    if product.vendorId.Some? {
      ParsePath(VendorProducts(product.vendorId.value));
      ParsePath(VendorProduct(product.vendorId.value, id));
    }
  }

  /** The first self link identifies the product: equal hrefs mean equal ids. */
  lemma ProductSelfLinkIdentifies(p: Product, q: Product)
    requires p.id.Some? && q.id.Some?
    requires ProductResource(p).links[0].href == ProductResource(q).links[0].href
    ensures p.id == q.id
  {
    PathInjective(ProductById(p.id.value), ProductById(q.id.value));
  }

  /**
   * `VendorResourceAssembler.toResource`: self, the vendor's products and the
   * vendor collection, in that order.
   */
  function VendorResource(vendor: Vendor): (r: Resource<Vendor>)
    reads vendor
    requires vendor.id.Some?
    ensures r.content == vendor
    ensures var v := NatToString(vendor.id.value);
      r.links == [Link("self", "/vendors/" + v), Link("products", "/vendors/" + v + "/products"), Link("vendors", "/vendors")]
  {
    var id := vendor.id.value;
    Resource(vendor, [LinkTo(VendorById(id), "self"), LinkTo(VendorProducts(id), "products"), LinkTo(AllVendors, "vendors")])
  }

  /** Every vendor link resolves to the handler the assembler names for it. */
  lemma VendorLinksResolve(vendor: Vendor)
    requires vendor.id.Some?
    ensures var r, id := VendorResource(vendor), vendor.id.value;
      && Parse(r.links[0].href) == Some(VendorById(id))
      && Parse(r.links[1].href) == Some(VendorProducts(id))
      && Parse(r.links[2].href) == Some(AllVendors)
  {
    ParsePath(VendorById(vendor.id.value));
    ParsePath(VendorProducts(vendor.id.value));
    ParsePath(AllVendors);
  }

  /** A vendor's links depend on its id alone, not on its name or its products. */
  lemma VendorLinksDependOnlyOnId(v: Vendor, w: Vendor)
    requires v.id.Some? && v.id == w.id
    ensures VendorResource(v).links == VendorResource(w).links
  {
  }
}
