/**
 * The declarative route tree a program hands to the router (nested `<Router>`
 * groups and `<Get>` … `<Delete>` leaves), and the handler chain compiled for
 * each leaf.
 */
module Routes {
  import opened Wrappers
  import opened Registries
  import opened Heaps

  /** The five leaf component types and the HTTP method each one binds. */
  datatype Method = GET | POST | PATCH | PUT | DELETE

  /** The four collaborator kinds; each has a registry of its own. */
  datatype Kind = Pipes | Interceptors | Filters | Services

  /** A user middleware function `(req, res, next) => …`. */
  type MiddlewareId = nat

  /** The props of a `<Router>` group (an absent list is the empty list). */
  datatype GroupProps = GroupProps(
    path: Option<string>,
    controller: Option<ClassId>,
    pipes: seq<ClassId>,
    interceptors: seq<ClassId>,
    filters: seq<ClassId>,
    services: seq<ClassId>,
    validate: Option<Options>,
    middlewares: seq<MiddlewareId>,
    ignoreParentPipes: bool,
    ignoreParentInterceptors: bool,
    ignoreParentFilters: bool,
    ignoreParentServices: bool)
  {
    /** The classes this group declares for collaborator kind `k`. */
    function Declared(k: Kind): seq<ClassId> {
      match k
      case Pipes => pipes
      case Interceptors => interceptors
      case Filters => filters
      case Services => services
    }

    /** The `ignoreParent<Kind>` flag for kind `k`. */
    predicate IgnoresParent(k: Kind) {
      match k
      case Pipes => ignoreParentPipes
      case Interceptors => ignoreParentInterceptors
      case Filters => ignoreParentFilters
      case Services => ignoreParentServices
    }
  }

  /**
   * The props the router reads from a non-group child: `verb` is the method of
   * its component type, or None for a component that is none of the five.
   */
  datatype LeafProps = LeafProps(
    verb: Option<Method>,
    path: Option<string>,
    controller: Option<ClassId>,
    handle: Option<string>,
    validate: Option<Options>)

  /** A route tree: groups with ordered children, and leaves. */
  datatype Node =
    | Group(props: GroupProps, children: seq<Node>)
    | Leaf(leaf: LeafProps)

  /**
   * What the handler chain of one leaf works with: its group's pipes,
   * interceptors and filters, the group's middlewares, the leaf's own
   * validation options (when it binds a method), the controller object and
   * the handler name.
   */
  datatype Chain = Chain(
    pipes: Registry,
    interceptors: Registry,
    filters: Registry,
    middlewares: seq<MiddlewareId>,
    validate: Option<Options>,
    controller: InstId,
    handler: string)
  {
    ghost predicate Valid() {
      pipes.Valid() && interceptors.Valid() && filters.Valid()
    }
  }
}
