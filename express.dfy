/**
 * The underlying server as the router uses it: routers are created, mounted
 * under a path on another router, and given method bindings. The server is
 * reduced to the log of these events.
 */
module Express {
  import opened Routes

  /** An `express.Router()` object. */
  type RouterId = nat

  datatype Event =
    | Mount(parent: RouterId, path: string, child: RouterId)
    | Bind(router: RouterId, verb: Method, path: string, chain: Chain)

  class Server {
    /** How many routers have been created; the next one gets this id. */
    var routerCount: nat
    /** Every mount and binding, in the order they were made. */
    var log: seq<Event>

    constructor ()
      ensures routerCount == 0 && log == []
    {
      routerCount, log := 0, [];
    }

    /** `express.Router()`. */
    method NewRouter() returns (id: RouterId)
      modifies this
      ensures id == old(routerCount) && routerCount == old(routerCount) + 1
      ensures log == old(log)
    {
      id := routerCount;
      routerCount := routerCount + 1;
    }

    /** `parent.use(path, child)`. */
    method Use(parent: RouterId, path: string, child: RouterId)
      modifies this
      ensures log == old(log) + [Mount(parent, path, child)]
      ensures routerCount == old(routerCount)
    {
      log := log + [Mount(parent, path, child)];
    }

    /** `router.get(path, ...handlers)` and its four siblings. */
    method Route(router: RouterId, verb: Method, path: string, chain: Chain)
      modifies this
      ensures log == old(log) + [Bind(router, verb, path, chain)]
      ensures routerCount == old(routerCount)
    {
      log := log + [Bind(router, verb, path, chain)];
    }
  }
}
