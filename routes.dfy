/**
 * The gateway's route templates and the concrete paths they expand to.
 * `Path` is what the link builder produces for a handler and its path
 * variables; `Parse` recognises such a path and recovers the handler and
 * the variables, so a link can be checked to name the intended endpoint.
 */
module Routes {
  import opened Wrappers
  import opened Decimal

  /** One constructor per gateway endpoint that a link can point at. */
  datatype Route =
    | AllProducts                                // GET /products
    | ProductById(productId: nat)                // GET /products/{id}
    | AllVendors                                 // GET /vendors
    | VendorById(vendorId: nat)                  // GET /vendors/{id}
    | VendorProducts(vendorId: nat)              // GET /vendors/{id}/products
    | VendorProduct(vendorId: nat, productId: nat) // GET /vendors/{vendor_id}/products/{product_id}

  /** The path segments of a route, variables expanded in decimal. */
  function Segments(route: Route): seq<string> {
    match route
    case AllProducts => ["products"]
    case ProductById(p) => ["products", NatToString(p)]
    case AllVendors => ["vendors"]
    case VendorById(v) => ["vendors", NatToString(v)]
    case VendorProducts(v) => ["vendors", NatToString(v), "products"]
    case VendorProduct(v, p) => ["vendors", NatToString(v), "products", NatToString(p)]
  }

  /** Each segment preceded by a slash. */
  function Join(segments: seq<string>): string {
    if segments == [] then "" else "/" + segments[0] + Join(segments[1..])
  }

  /** Length of the longest prefix of `s` that holds no slash. */
  function SegmentLength(s: string): (n: nat)
    ensures n <= |s|
    ensures forall i :: 0 <= i < n ==> s[i] != '/'
    ensures n < |s| ==> s[n] == '/'
  {
    if s == [] || s[0] == '/' then 0 else 1 + SegmentLength(s[1..])
  }

  /** Cuts a path of the form "/a/b/c" into its segments; `None` if it does not start with a slash. */
  function Split(path: string): Option<seq<string>>
    decreases |path|
  {
    if path == [] then Some([])
    else if path[0] != '/' then None
    else
      var rest := path[1..];
      var n := SegmentLength(rest);
      match Split(rest[n..])
      case None => None
      case Some(tail) => Some([rest[..n]] + tail)
  }

  /** The concrete path of a route: its template with the variables filled in. */
  function Path(route: Route): (path: string)
    ensures |path| > 1 && path[0] == '/'
  {
    match route
    case AllProducts => "/products"
    case ProductById(p) => "/products/" + NatToString(p)
    case AllVendors => "/vendors"
    case VendorById(v) => "/vendors/" + NatToString(v)
    case VendorProducts(v) => "/vendors/" + NatToString(v) + "/products"
    case VendorProduct(v, p) => "/vendors/" + NatToString(v) + "/products/" + NatToString(p)
  }

  /** The route a list of segments denotes, if any. */
  function RouteOf(segments: seq<string>): Option<Route> {
    if |segments| == 1 then
      if segments[0] == "products" then Some(AllProducts)
      else if segments[0] == "vendors" then Some(AllVendors)
      else None
    else if |segments| == 2 then
      match ParseNat(segments[1])
      case None => None
      case Some(n) =>
        if segments[0] == "products" then Some(ProductById(n))
        else if segments[0] == "vendors" then Some(VendorById(n))
        else None
    else if |segments| == 3 then
      match ParseNat(segments[1])
      case None => None
      case Some(v) =>
        if segments[0] == "vendors" && segments[2] == "products" then Some(VendorProducts(v)) else None
    else if |segments| == 4 then
      match (ParseNat(segments[1]), ParseNat(segments[3]))
      case (Some(v), Some(p)) =>
        if segments[0] == "vendors" && segments[2] == "products" then Some(VendorProduct(v, p)) else None
      case _ => None
    else None
  }

  /** The route a concrete path resolves to, if any. */
  function Parse(path: string): Option<Route> {
    match Split(path)
    case None => None
    case Some(segments) => RouteOf(segments)
  }

  predicate NoSlash(segments: seq<string>) {
    forall i :: 0 <= i < |segments| ==> '/' !in segments[i]
  }

  lemma {:induction false} SegmentLengthOfConcat(a: string, b: string)
    requires '/' !in a
    requires b == [] || b[0] == '/'
    ensures SegmentLength(a + b) == |a|
    decreases |a|
  {
    if a != [] {
      assert (a + b)[0] == a[0];
      assert (a + b)[1..] == a[1..] + b;
      SegmentLengthOfConcat(a[1..], b);
    }
  }

  /** Splitting peels off one slash-free segment at a time. */
  lemma SplitStep(head: string, joined: string)
    requires '/' !in head
    requires joined == [] || joined[0] == '/'
    ensures Split("/" + head + joined) == match Split(joined)
      case None => None
      case Some(tail) => Some([head] + tail)
  {
    var path := "/" + head + joined;
    var rest := path[1..];
    assert rest == head + joined;
    SegmentLengthOfConcat(head, joined);
    assert rest[..|head|] == head;
    assert rest[|head|..] == joined;
  }

  lemma {:induction false} SplitJoin(segments: seq<string>)
    requires NoSlash(segments)
    ensures Split(Join(segments)) == Some(segments)
    decreases |segments|
  {
    if segments != [] {
      var head, tail := segments[0], segments[1..];
      assert NoSlash(tail) by {
        forall i | 0 <= i < |tail| ensures '/' !in tail[i] {
          assert tail[i] == segments[i + 1];
        }
      }
      SplitJoin(tail);
      var joined := Join(tail);
      assert joined == [] || joined[0] == '/';
      SplitStep(head, joined);
      assert [head] + tail == segments;
    }
  }

  lemma {:induction false} JoinSplit(path: string, segments: seq<string>)
    requires Split(path) == Some(segments)
    ensures Join(segments) == path
    decreases |path|
  {
    if path != [] {
      var rest := path[1..];
      var n := SegmentLength(rest);
      var tail := Split(rest[n..]).value;
      JoinSplit(rest[n..], tail);
      assert segments == [rest[..n]] + tail;
      assert segments[1..] == tail;
      assert path == "/" + rest[..n] + rest[n..];
    }
  }

  lemma JoinOne(x: string)
    ensures Join([x]) == "/" + x
  {
    assert Join([x]) == "/" + x + Join([]);
  }

  lemma JoinPair(x: string, y: string)
    ensures Join([x, y]) == "/" + x + "/" + y
  {
    assert [x, y][1..] == [y];
    JoinOne(y);
  }

  lemma JoinTriple(x: string, y: string, z: string)
    ensures Join([x, y, z]) == "/" + x + "/" + y + "/" + z
  {
    assert [x, y, z][1..] == [y, z];
    JoinPair(y, z);
  }

  lemma JoinQuadruple(w: string, x: string, y: string, z: string)
    ensures Join([w, x, y, z]) == "/" + w + "/" + x + "/" + y + "/" + z
  {
    assert [w, x, y, z][1..] == [x, y, z];
    JoinTriple(x, y, z);
  }

  lemma ProductPathIsJoin(p: nat)
    ensures Path(ProductById(p)) == Join(Segments(ProductById(p)))
  {
    JoinPair("products", NatToString(p));
  }

  lemma VendorPathIsJoin(v: nat)
    ensures Path(VendorById(v)) == Join(Segments(VendorById(v)))
  {
    JoinPair("vendors", NatToString(v));
  }

  lemma VendorProductsPathIsJoin(v: nat)
    ensures Path(VendorProducts(v)) == Join(Segments(VendorProducts(v)))
  {
    JoinTriple("vendors", NatToString(v), "products");
  }

  lemma VendorProductPathIsJoin(v: nat, p: nat)
    ensures Path(VendorProduct(v, p)) == Join(Segments(VendorProduct(v, p)))
  {
    JoinQuadruple("vendors", NatToString(v), "products", NatToString(p));
  }

  /** A route's path is the slash-joined list of its segments. */
  lemma PathIsJoin(route: Route)
    ensures Path(route) == Join(Segments(route))
  {
    match route {
      case AllProducts => JoinOne("products");
      case ProductById(p) => ProductPathIsJoin(p);
      case AllVendors => JoinOne("vendors");
      case VendorById(v) => VendorPathIsJoin(v);
      case VendorProducts(v) => VendorProductsPathIsJoin(v);
      case VendorProduct(v, p) => VendorProductPathIsJoin(v, p);
    }
  }

  lemma SegmentsNoSlash(route: Route)
    ensures NoSlash(Segments(route))
  {
  }

  /** `RouteOf` recognises the segments of every route. */
  lemma RouteOfSegments(route: Route)
    ensures RouteOf(Segments(route)) == Some(route)
  {
    match route {
      case AllProducts =>
      case ProductById(p) => ParseNatToString(p);
      case AllVendors =>
      case VendorById(v) => ParseNatToString(v);
      case VendorProducts(v) => ParseNatToString(v);
      case VendorProduct(v, p) =>
        ParseNatToString(v);
        ParseNatToString(p);
    }
  }

  /** Every route's path resolves back to that route. */
  lemma ParsePath(route: Route)
    ensures Parse(Path(route)) == Some(route)
  {
    SegmentsNoSlash(route);
    SplitJoin(Segments(route));
    PathIsJoin(route);
    RouteOfSegments(route);
  }

  /** `RouteOf` only accepts the exact segments of the route it returns. */
  lemma SegmentsOfRouteOf(segments: seq<string>, route: Route)
    requires RouteOf(segments) == Some(route)
    ensures Segments(route) == segments
  {
    if |segments| == 2 || |segments| == 3 {
      NatToStringOfValue(segments[1]);
    } else if |segments| == 4 {
      NatToStringOfValue(segments[1]);
      NatToStringOfValue(segments[3]);
      assert Segments(route) == ["vendors", segments[1], "products", segments[3]];
    }
  }

  /** A path that resolves to a route is exactly that route's path. */
  lemma PathParse(path: string, route: Route)
    requires Parse(path) == Some(route)
    ensures Path(route) == path
  {
    var segments := Split(path).value;
    JoinSplit(path, segments);
    SegmentsOfRouteOf(segments, route);
    PathIsJoin(route);
  }

  /** Distinct routes never share a path. */
  lemma PathInjective(r1: Route, r2: Route)
    requires Path(r1) == Path(r2)
    ensures r1 == r2
  {
    ParsePath(r1);
    ParsePath(r2);
  }
}
