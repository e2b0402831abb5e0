/**
 * The gateway's payload beans. Every scalar field of the Java classes is a
 * nullable reference, so each is an `Option` here; `None` is `null`. The
 * vendor's product list is a plain sequence.
 */
module Payload {
  import opened Wrappers
  import opened Hateoas

  /** A `BigDecimal` amount, unscaled value times ten to the power of minus `scale`; never inspected. */
  datatype Price = Price(unscaled: int, scale: int)

  /** A product as delivered by the product service. */
  class Product {
    var id: Option<nat>
    var name: Option<string>
    var price: Option<Price>
    var imageUrl: Option<string>
    var vendorId: Option<nat>

    /** `new Product()`: every field left null. */
    constructor Empty()
      ensures id == None && name == None && price == None && imageUrl == None && vendorId == None
    {
      id, name, price, imageUrl, vendorId := None, None, None, None, None;
    }

    /** `new Product(id, name, price, imageUrl, vendorId)`: every field stored as given. */
    constructor (id: Option<nat>, name: Option<string>, price: Option<Price>, imageUrl: Option<string>, vendorId: Option<nat>)
      ensures this.id == id && this.name == name && this.price == price
      ensures this.imageUrl == imageUrl && this.vendorId == vendorId
    {
      this.id, this.name, this.price, this.imageUrl, this.vendorId := id, name, price, imageUrl, vendorId;
    }

    method SetId(id: Option<nat>)
      modifies this
      ensures this.id == id
      ensures name == old(name) && price == old(price) && imageUrl == old(imageUrl) && vendorId == old(vendorId)
    {
      this.id := id;
    }

    method SetName(name: Option<string>)
      modifies this
      ensures this.name == name
      ensures id == old(id) && price == old(price) && imageUrl == old(imageUrl) && vendorId == old(vendorId)
    {
      this.name := name;
    }

    method SetPrice(price: Option<Price>)
      modifies this
      ensures this.price == price
      ensures id == old(id) && name == old(name) && imageUrl == old(imageUrl) && vendorId == old(vendorId)
    {
      this.price := price;
    }

    method SetImageUrl(imageUrl: Option<string>)
      modifies this
      ensures this.imageUrl == imageUrl
      ensures id == old(id) && name == old(name) && price == old(price) && vendorId == old(vendorId)
    {
      this.imageUrl := imageUrl;
    }

    method SetVendorId(vendorId: Option<nat>)
      modifies this
      ensures this.vendorId == vendorId
      ensures id == old(id) && name == old(name) && price == old(price) && imageUrl == old(imageUrl)
    {
      this.vendorId := vendorId;
    }
  }

  /**
   * A vendor as delivered by the vendor service, with a list of assembled
   * product resources that the gateway extends in place.
   */
  class Vendor {
    var id: Option<nat>
    var name: Option<string>
    var products: seq<Resource<Product>>

    /** `new Vendor()`: id and name null, product list empty. */
    constructor Empty()
      ensures id == None && name == None && products == []
    {
      id, name, products := None, None, [];
    }

    /** `new Vendor(id, name)`: id and name as given, product list empty. */
    constructor (id: Option<nat>, name: Option<string>)
      ensures this.id == id && this.name == name && products == []
    {
      this.id, this.name, products := id, name, [];
    }

    method SetId(id: Option<nat>)
      modifies this
      ensures this.id == id && name == old(name) && products == old(products)
    {
      this.id := id;
    }

    method SetName(name: Option<string>)
      modifies this
      ensures this.name == name && id == old(id) && products == old(products)
    {
      this.name := name;
    }

    method SetProducts(products: seq<Resource<Product>>)
      modifies this
      ensures this.products == products && id == old(id) && name == old(name)
    {
      this.products := products;
    }

    /** `getProducts().addAll(more)`: the live list grows at its end; nothing else changes. */
    method AddAllProducts(more: seq<Resource<Product>>)
      modifies this
      ensures products == old(products) + more
      ensures id == old(id) && name == old(name)
    {
      products := products + more;
    }
  }
}
