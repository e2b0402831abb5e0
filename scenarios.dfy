/**
 * Concrete requests worked through the model: the situations the gateway's
 * unit tests set up, a vendor whose products come from the product list, and
 * the vendor-scoped lookup that a foreign product in the list aborts.
 */
module Scenarios {
  import opened Wrappers
  import opened Decimal
  import opened Hateoas
  import opened Payload
  import opened Assembler
  import opened VendorController

  lemma OneIsOne()
    ensures NatToString(1) == "1"
  {
  }

  /** The links of product 1 of vendor 1. */
  lemma ProductOneLinks(product: Product)
    requires product.id == Some(1) && product.vendorId == Some(1)
    ensures ProductResource(product).links
         == [Link("self", "/products/1"), Link("vendor", "/vendors/1/products"), Link("self", "/vendors/1/products/1")]
  {
    OneIsOne();
    var links := ProductResource(product).links;
    assert links[0] == Link("self", "/products/1");
    assert links[1] == Link("vendor", "/vendors/1/products");
    assert links[2] == Link("self", "/vendors/1/products/1");
  }

  /** A product of vendor 1 gets the product link, the vendor's product list and the vendor-scoped link. */
  method ProductWithVendor() returns (r: Resource<Product>)
    ensures r.content.id == Some(1) && r.content.vendorId == Some(1)
    ensures r.links == [Link("self", "/products/1"), Link("vendor", "/vendors/1/products"), Link("self", "/vendors/1/products/1")]
  {
    var product := new Product(Some(1), Some("test product"), Some(Price(105, 1)), Some("test image"), Some(1));
    r := ProductResource(product);
    ProductOneLinks(product);
  }

  /** A product built empty and filled by setters, without a vendor, links to the product collection. */
  method ProductWithoutVendor() returns (r: Resource<Product>)
    ensures r.content.id == Some(1) && r.content.name == Some("test product") && r.content.vendorId == None
    ensures r.links == [Link("self", "/products/1"), Link("products", "/products")]
  {
    OneIsOne();
    var product := new Product.Empty();
    product.SetId(Some(1));
    product.SetName(Some("test product"));
    product.SetPrice(Some(Price(105, 1)));
    product.SetImageUrl(Some("test image"));
    r := ProductResource(product);
    assert r.links[0] == Link("self", "/products/1");
    assert r.links[1] == Link("products", "/products");
  }

  /** Vendor 1 gets exactly its self link, its product list and the vendor collection. */
  method VendorLinks() returns (r: Resource<Vendor>)
    ensures r.content.id == Some(1) && r.content.name == Some("Test_Vendor") && r.content.products == []
    ensures r.links == [Link("self", "/vendors/1"), Link("products", "/vendors/1/products"), Link("vendors", "/vendors")]
  {
    OneIsOne();
    var vendor := new Vendor(Some(1), Some("Test_Vendor"));
    r := VendorResource(vendor);
    assert r.links[0] == Link("self", "/vendors/1");
    assert r.links[1] == Link("products", "/vendors/1/products");
  }

  /**
   * Vendor 1 already embeds a link-less resource of product 1 and the product
   * list is empty: the result is that embedded resource alone.
   */
  method EmbeddedProductKept() returns (r: Result<Resources<Resource<Product>>, Failure>)
    ensures r.Success? && |r.value.content| == 1
    ensures r.value.content[0].content.id == Some(1) && r.value.content[0].links == []
    ensures r.value.links == [Link("self", "/products")]
  {
    var vendor := new Vendor(Some(1), Some("TestVendor1"));
    var product := new Product(Some(1), Some("product1"), Some(Price(105, 1)), Some("image"), Some(1));
    vendor.AddAllProducts([Resource(product, [])]);
    r := GetProductsByVendorId(vendor, [], 1);
    assert vendor.products == [Resource(product, [])];
  }

  /** Vendor 1 with no embedded products and one product of its own in the product service. */
  method ProductsOfVendorOne() returns (r: Result<Resources<Resource<Product>>, Failure>)
    ensures r.Success? && |r.value.content| == 1
    ensures r.value.content[0].content.id == Some(1)
    ensures r.value.content[0].links
         == [Link("self", "/products/1"), Link("vendor", "/vendors/1/products"), Link("self", "/vendors/1/products/1")]
    ensures r.value.links == [Link("self", "/products")]
  {
    var vendor := new Vendor(Some(1), Some("TestVendor1"));
    var product := new Product(Some(1), Some("product1"), Some(Price(105, 1)), Some("image"), Some(1));
    var products := [product];
    var assembled := ProductResource(product);
    assert products[1..] == [];
    assert ProductResourceList(products[1..], 1) == Success([]);
    assert [assembled] + [] == [assembled];
    assert ProductResourceList(products, 1) == Success([assembled]);
    r := GetProductsByVendorId(vendor, products, 1);
    assert r.value.content == [assembled];
    ProductOneLinks(product);
  }

  /** Vendor 1 asks for its product 1, the only product in the list: the product itself is returned. */
  method OwnProductFound() returns (r: Result<Resource<Product>, Failure>)
    ensures r.Success?
    ensures r.value.content.id == Some(1) && r.value.content.name == Some("product1")
    ensures r.value.content.price == Some(Price(105, 1)) && r.value.content.imageUrl == Some("image")
    ensures r.value.content.vendorId == Some(1)
  {
    var product := new Product(Some(1), Some("product1"), Some(Price(105, 1)), Some("image"), Some(1));
    FoundWhenAllBelong([product], 1, 1, 0);
    r := GetProductByVendorIdAndProductId([product], 1, 1);
  }

  /** A vendor service answering with vendor 1 alone gives a one-element collection under self /vendors. */
  method AllVendorsOne() returns (r: Resources<Resource<Vendor>>)
    ensures |r.content| == 1 && r.content[0].content.id == Some(1) && r.content[0].content.name == Some("TestVendor1")
    ensures r.links == [Link("self", "/vendors")]
  {
    var vendor := new Vendor(Some(1), Some("TestVendor1"));
    r := GetAllVendors([vendor]);
  }

  /** Product 1 belongs to vendor 1, yet product 2 of vendor 2 in the same list makes the lookup fail. */
  method ForeignProductAbortsLookup() returns (r: Result<Resource<Product>, Failure>)
    ensures r == Failure(Feign("Product doesn't belong to vendor id:1"))
  {
    OneIsOne();
    var own := new Product(Some(1), Some("product1"), None, None, Some(1));
    var foreign := new Product(Some(2), Some("product2"), None, None, Some(2));
    var products := [own, foreign];
    assert !BelongsTo(products[1], 1);
    assert FirstStranger(products, 1) == 1;
    r := GetProductByVendorIdAndProductId(products, 1, 1);
    assert r == Failure(StrangerFailure(foreign, 1));
    assert NotBelongPrefix + "1" == "Product doesn't belong to vendor id:1";
  }
}
