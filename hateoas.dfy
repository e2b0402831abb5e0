/**
 * Hypermedia wrappers in the shape Spring HATEOAS gives them: a link is a
 * relation name and an href; a resource pairs one entity with an ordered
 * list of links (relation names may repeat); a resource collection pairs a
 * list of entities with its own links.
 */
module Hateoas {
  import opened Wrappers
  import opened Routes

  datatype Link = Link(rel: string, href: string)

  datatype Resource<T> = Resource(content: T, links: seq<Link>)

  datatype Resources<T> = Resources(content: seq<T>, links: seq<Link>)

  /**
   * `linkTo(methodOn(Controller).handler(args)).withRel(rel)`: a link under
   * the given relation to the handler's absolute path.
   */
  function LinkTo(route: Route, rel: string): (link: Link)
    ensures link.rel == rel && |link.href| > 1 && link.href[0] == '/'
  {
    Link(rel, Path(route))
  }

  /** The href of a link to a handler resolves back to that handler and its path variables. */
  lemma LinkToResolves(route: Route, rel: string)
    ensures Parse(LinkTo(route, rel).href) == Some(route)
  {
    ParsePath(route);
  }

  /** The entities wrapped by a list of resources, in order. */
  function Contents<T>(resources: seq<Resource<T>>): (contents: seq<T>)
    ensures |contents| == |resources|
    ensures forall k :: 0 <= k < |resources| ==> contents[k] == resources[k].content
  {
    if resources == [] then [] else [resources[0].content] + Contents(resources[1..])
  }
}
