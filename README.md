# restjs router core in Dafny

This project models the `Router` component of restjs/rest (`src/Router.tsx`)
and the `@Inject()` decorator (`src/decorators/Inject.ts`).

The router takes a tree of `<Router>` groups and `<Get>` … `<Delete>` leaves
and compiles it once, onto a tree of Express routers. Each group keeps five
registries: controllers, pipes, interceptors, filters and services. A nested
group inherits a snapshot of its parent's registries unless it sets the
matching `ignoreParent*` flag. Objects are created lazily, once per group, and
receive their `@Inject` fields from the group's services. Each leaf with a
method gets a handler chain. On every request the chain runs:

- the pipes' `use`;
- the interceptors' `in`;
- the group's middlewares;
- the leaf's validation;
- the handler;
- the interceptors' `out`;
- a text or JSON response.

A throw at any stage goes through the filters (`handleErrors`).

Modules:

- `Paths`: `createPath`.
- `Registries`: a registry is a JavaScript object keyed by class. It is
  modelled as a key list in insertion order plus a map, and snapshot
  installation is proved to restore it.
- `Heaps`: the slice of the JavaScript heap the router touches. It holds the
  class of each object, the injected fields, the validation pipes' `params`
  and the `@Inject` metadata of each class.
- `Decorators`: `@Inject()`.
- `Injection`: `injectDependencies`, as a function, with its exact effect and
  its idempotence.
- `Generation`: the `get*` functions and the loops of the `generate*`
  methods over a group's declared classes, on values. It covers which objects
  are created, in what order, under which keys, and what each receives from
  injection.
- `Routes`: the route tree and the handler chain of a leaf.
- `Express`: the server, reduced to the log of routers created, mounts and
  bindings.
- `Requests`, `JsValues`: what one request meets. A `Hooks` value gives
  each object's `use`/`in`/`out`/`catch` hooks, the middlewares, the
  validation and the handler.
- `Pipeline`: the per-request chain. Each stage is a specification function
  that records the hooks it calls. Each loop of the source is a method proved
  equal to its function.
- `ErrorTranslator`: `handleErrors`.
- `Routing`: the `Router` class. It covers the registries, `get*`,
  `generate*`, `injectDependencies`, the compilation of a leaf, the
  `Children.map` body, and `render`, including the nested routers.
- `RenderGeneration`: what `render`'s four `generate*` calls do together.
  It covers the first error, the allocation order, the registries'
  contents, and injection, with services first.
- `CompilePlan`: what `render` does to the server, as a function of the tree.
  It lists the mounts and bindings in order and the routers created. One
  binding per leaf with a method is proved.

Behaviour of the code that the model keeps, some of it easy to miss:

- A nested group does not inherit its parent's `controller`: the nested
  `<Router>` receives only its own props. A leaf in a nested group without
  its own controller fails with "set a valid controller".
- A leaf's middlewares are those of its group (`this.props.middlewares`), not
  the leaf's own.
- Error messages join only the current group's path with the leaf's path, not
  the full mounted path.
- `result == undefined` is tested on the handler's return value before it is
  awaited. A promise that resolves to `undefined` is sent as an empty 200
  text response (`Pipeline.AsyncUndefinedIsSent`).
- `new controller()` is not wrapped: its failure is not turned into a router
  error. The model keeps it as a distinct error, `ControllerNotConstructible`.
- A leaf of an unknown component type (no method) still goes through the
  controller and `handle` checks, but binds nothing.
- A nested `<Router>` element is rendered only after its parent's
  `Children.map` has handled every child. A group's mounts and leaf bindings
  therefore all come before anything its nested groups do.
- A group's own `validate` replaces an inherited validation pipe in place (same
  key, same position) rather than appending one.
- A service is registered before it is injected (`getService`); a pipe,
  interceptor or filter is injected first. A new service can therefore
  receive itself and the services registered before it, but not those
  declared after it. Every later object sees the complete services registry.
- The group's own validation pipe is created with `new ValidationPipe()`
  and given `params`; it is not injected.
- A leaf's handlers read the group's pipes, interceptors and filters when a
  request arrives. Nothing changes those registries after `render`'s
  `generate*` calls, so the chain holds them as they are at that point.

## Model

| member | source | states |
|---|---|---|
| Paths.CreatePath | src/Router.tsx:41-48 | the result starts with '/'; unset or empty gives "/"; a path starting with '/' is kept; any other gets '/' prepended |
| Paths.CreatePathIdempotent | src/Router.tsx:41-48 | normalising a normalised path changes nothing |
| Registries.Registry.Put | src/Router.tsx:58 | assigning a key sets its instance; a new key goes last in iteration order, an existing key keeps its place |
| Registries.Registry.Entries | src/Router.tsx:259-263 | the `{_class, _instance}` pairs of a snapshot, one per key, in iteration order |
| Registries.Registry.Values | src/Router.tsx:88-89 | the instances a `for...in` loop visits, in key order |
| Registries.InstallSnapshotRestores | src/Router.tsx:67-71 | installing a registry's snapshot into an empty registry gives back the same registry (same classes, order and instances) |
| Registries.InstallPrefix | src/Router.tsx:69-71 | installing the first n pairs of a snapshot rebuilds the first n keys of its source |
| Decorators.Inject | src/decorators/Inject.ts:5-11 | one `{prop, type}` entry is appended to the class's metadata list (empty when none was recorded); no other class's list and no object changes |
| Injection.LastService | src/Router.tsx:225-229 | a field is injected exactly when some entry for it names a class the group has a service for |
| Injection.InjectedAt | src/Router.tsx:222-232 | injection sets exactly the fields of the object named by an entry with a service, each to the service of the last such entry; every other field of every object keeps its value |
| Injection.InjectionIdempotent | src/Router.tsx:313-314 | injecting an object a second time (as each leaf of a group does with its controller) changes nothing |
| Heaps.Heap.New | src/Router.tsx:56 | `new C()` allocates one object of class C, or throws when C cannot be constructed; no other part of the heap changes |
| Heaps.Heap.NewValidationPipe | src/Router.tsx:80-81 | a new validation pipe object carrying the group's options |
| Express.Server.NewRouter | src/Router.tsx:252 | a new router with the next id |
| Express.Server.Use | src/Router.tsx:253 | one mount is appended to the server's log |
| Express.Server.Route | src/Router.tsx:395-401 | one binding (method, path, handler chain) is appended to the server's log |
| Generation.Created | src/Router.tsx:196-199 | a new object of class c is allocated at the next index and registered under c, which goes last in key order; nothing else is registered |
| Generation.FirstNonClass | src/Router.tsx:74-78 | the first declared class that is neither registered nor constructible, and None exactly when every declared class is one or the other |
| Generation.DeclaredFails | src/Router.tsx:215-219 | the `forEach(get<Kind>)` loop stops with exactly the first declared class that is neither registered nor constructible |
| Generation.DeclaredOrder | src/Router.tsx:74-78 | the loop allocates one object per class it creates, in declaration order, and appends those classes to the keys in the same order |
| Generation.DeclaredExtends | src/Router.tsx:50-63 | the loop keeps every key and instance the registry started with |
| Generation.DeclaredRegisters | src/Router.tsx:58 | the i-th class the loop creates is registered under the i-th object it allocates |
| Generation.DeclaredAll | src/Router.tsx:215-219 | when no construction throws, every declared class ends up registered |
| Generation.DeclaredKeeps | src/Router.tsx:222-231 | the loop changes no field of an object it did not create |
| Generation.DeclaredInjects | src/Router.tsx:196-199 | each object the loop creates receives exactly what injection gives it: a pipe, interceptor or filter from the group's services, a service from the services registered up to and including itself |
| Routing.DeclareError | src/Router.tsx:60-62 | an error exactly when a declared class failed, naming the kind and that class |
| Routing.InheritanceRestores | src/Router.tsx:259-282 | a child that does not ignore a kind starts with exactly its parent's registry of that kind; one that ignores it starts empty |
| Routing.Router.constructor | src/Router.tsx:34-39 | a new component has five empty registries |
| Routing.Router.InjectDependencies | src/Router.tsx:222-232 | the loop over the metadata leaves the fields as `Injection.Injected` describes; no object is created and no metadata changes |
| Routing.Router.GetOrCreate | src/Router.tsx:50-63 | the registered instance when there is one; otherwise a router error when the class cannot be constructed; otherwise a new object, registered under its class and injected from the group's services (a service is registered before it is injected) |
| Routing.Router.GetOrCreateTwice | src/Router.tsx:191-195 | asking twice for the same class gives the same answer, the same object when there is one |
| Routing.Router.Declare | src/Router.tsx:191-204 | `get<Kind>(c)` changes the registry, allocation and fields exactly as `Generation.Acquired` says, or fails naming c; the other registries are untouched |
| Routing.Router.Inherit | src/Router.tsx:115-122 | a kind's registry starts as the installed parent snapshot, or empty when the group ignores it or none was handed |
| Routing.Router.CreateDeclared | src/Router.tsx:123-127 | the loop's verdict, and the registry, allocation and fields it leaves, are exactly `Generation.DeclaredRun`'s, so the `Declared*` lemmas (order, keys, kept entries, injection) hold of it |
| Routing.Router.AddValidationPipe | src/Router.tsx:79-84 | the validation pipe is registered under its class with the group's options |
| Routing.Router.Generate | src/Router.tsx:207-220 | `generateServices`/`generateInterceptors`/`generateFilters`: the verdict, registry, allocation and fields are those of `DeclaredRun` started from the installed parent snapshot, or from empty when the group ignores it |
| Routing.Router.GeneratePipes | src/Router.tsx:65-85 | the verdict, registry, allocation, fields and pipe options are exactly `KindRun`'s for pipes, validation pipe included |
| Routing.Router.GenerateKind | src/Router.tsx:237-240 | one `generate*` call leaves exactly what `KindRun` gives for that kind, and no other registry changes |
| Routing.Router.GenerateAll | src/Router.tsx:235-240 | the four `generate*` calls leave the verdict, the four registries, the allocation, the injected fields and the pipe options exactly as `GenerateRun` gives them |
| RenderGeneration.KindRunOrder | src/Router.tsx:65-85 | a kind fails with the first declared class neither inherited nor constructible; objects are allocated for the new classes in declaration order, then the validation pipe; the keys are the start's, then the new ones, then the validation pipe's when new; only the validation pipe gets options |
| RenderGeneration.KindRunRegisters | src/Router.tsx:65-85 | every inherited entry is kept except the one the validation pipe replaces; the i-th new class is registered under the i-th new object, and the validation pipe under the object after them; on success every declared class is registered |
| RenderGeneration.KindRunInjects | src/Router.tsx:50-63 | a kind's generation changes no field of an object it did not create, and each object it creates gets exactly what injection gives it |
| RenderGeneration.FirstError | src/Router.tsx:237-240 | Ok exactly when every listed kind's generation succeeds; otherwise the error of one of them |
| RenderGeneration.GenerateFails | src/Router.tsx:235-240 | `render`'s generation fails with the error of the first kind, in the order services, pipes, interceptors, filters, that fails |
| RenderGeneration.GenerateAllocates | src/Router.tsx:235-240 | on success, objects are allocated for the new services, then the new pipes and the validation pipe, then the new interceptors and filters; only the validation pipe gets options |
| RenderGeneration.ServicesFirst | src/Router.tsx:235-240 | on success, older objects keep their fields; each new service is injected from the services registered up to and including itself; every later object except the validation pipe is injected from the complete services registry |
| RenderGeneration.KindRegistersAsDeclared | src/Router.tsx:207-220 | a kind that succeeds lists the start's keys, then the new ones (then the validation pipe), keeps the inherited instances and registers every declared class |
| RenderGeneration.GenerateRegisters | src/Router.tsx:235-240 | on success each of the four registries is as `RegistersAsDeclared` describes |
| Routing.Router.GetController | src/Router.tsx:309-313 | the group's controller object, created on first use; nothing else changes |
| Routing.Router.CompileLeaf | src/Router.tsx:292-401 | the error when no controller is named, or when it cannot be constructed; otherwise the controller is registered and injected, the handle is checked, and exactly one binding is added when the leaf has a method, carrying the group's registries, middlewares, the leaf's validation and the handler |
| Routing.Router.HandleLeaf | src/Router.tsx:292-404 | a compiled leaf appends exactly its binding, handler chain included (nothing without a method); the group's registries do not change, and every binding made carries the group's pipes, interceptors, filters and middlewares |
| Routing.Router.MountChild | src/Router.tsx:252-289 | a nested group gets the next router id and exactly one mount under its path, and is handed the snapshots `Forwarded` gives for its `ignoreParent*` flags |
| Routing.Router.HandleChild | src/Router.tsx:251-404 | one child of `Children.map`: a nested group is mounted and handed exactly `Forwarded` of its props; a leaf appends exactly its binding; the registries do not change |
| Routing.Router.CompileChildren | src/Router.tsx:244-405 | the children are handled in order: the server gets exactly the mounts and bindings of `CompilePlan.MapShapes`, every binding carries this group's registries and middlewares, and each nested group is returned with its router and the snapshots this group forwards to it |
| Routing.Router.RenderNested | src/Router.tsx:284-289 | the nested groups are rendered in order, each with the snapshots this group forwards to it, each as its own plan says |
| Routing.Router.RenderGroup | src/Router.tsx:284-289 | the nested `<Router>` element, rendered with its router and snapshots, does to the server what its plan says |
| Routing.Router.RenderChildren | src/Router.tsx:244-290 | `Children.map`, then the nested groups: the server gets exactly the plan's mounts and bindings, the group's own bindings carry its registries and middlewares, and the registries do not change |
| Routing.Router.Render | src/Router.tsx:235-408 | a generation error is `GenerateRun`'s and adds nothing to the server; on success the registries are `GenerateRun`'s, the server gets exactly the mounts and bindings of `CompilePlan.PlanGroup`, in order, one binding per leaf with a method and one new router per nested group, and the group's own bindings carry those registries and its middlewares |
| CompilePlan.OneBindingPerLeaf | src/Router.tsx:292-401 | a compiled tree has exactly one binding per leaf with a method, nested groups included |
| CompilePlan.OneRouterPerGroup | src/Router.tsx:251-289 | compiling a tree creates exactly one router per nested group, at any depth, with consecutive ids |
| CompilePlan.LeavesOfGroup | src/Router.tsx:244-290 | a group's method leaves are its direct ones plus those of its nested groups |
| CompilePlan.PendingGroups | src/Router.tsx:251-289 | each pending entry is a nested group among the children |
| ErrorTranslator.CatchRun | src/Router.tsx:415-437 | the filter loop calls only catch hooks, in filter order, and its calls are a prefix of those the filters have, so at most one per filter; it ends in a response with the error's status or in an error thrown by a filter |
| ErrorTranslator.HandleErrors | src/Router.tsx:410-441 | the loop over the filters gives what `ErrorsRun` specifies |
| ErrorTranslator.Translation | src/Router.tsx:410-441 | an error not named "HttpException" is re-thrown and no filter is called; any other gets a response with its own status, and always does when no filter throws |
| ErrorTranslator.LastTruthyWins | src/Router.tsx:414-437 | when no filter names an output mode, the response is JSON of the last truthy filter result, or of `{message, statusCode}` |
| ErrorTranslator.FirstModeDecides | src/Router.tsx:422-432 | the first filter result naming `out` decides: JSON for true or "json", the message as text for "text" |
| ErrorTranslator.NumeralOutAsksJson | src/Router.tsx:425 | a filter result `{out: "01"}` asks for JSON, since `"01" == true` holds loosely |
| JsValues.DigitsEqualTrue | src/Router.tsx:425 | a string of plain digits whose value is 1 equals `true` loosely |
| JsValues.LeadingZeroEqualsTrue | src/Router.tsx:425 | `"01" == true` holds |
| Pipeline.PipesRun | src/Router.tsx:87-97 | only pipes' `use` hooks are called, and the calls are a prefix of the `use` hooks the pipes have, in registry order |
| Pipeline.InboundRun | src/Router.tsx:130-143 | only `in` hooks are called, and the calls are a prefix of the `in` hooks the interceptors have, in registry order |
| Pipeline.OutboundRun | src/Router.tsx:145-158 | only `out` hooks are called, and the calls are a prefix of the `out` hooks the interceptors have, in registry order |
| Pipeline.PipesAllRun | src/Router.tsx:87-97 | when no `use` throws, every pipe that has `use` is called once, in registry order, and the stage passes |
| Pipeline.PipeThrowStops | src/Router.tsx:87-97 | the first `use` that throws ends the stage with its error, after exactly the `use` hooks up to and including it |
| Pipeline.InboundAllPass | src/Router.tsx:130-143 | when every `in` result is truthy, every interceptor that has `in` is called once, in registry order, and the stage answers true |
| Pipeline.InboundThrowStops | src/Router.tsx:130-143 | the first `in` that throws ends the stage with its error, after exactly the `in` hooks up to and including it |
| Pipeline.ReplyRun | src/Router.tsx:381-387 | after the handler only `out` and `catch` hooks run |
| Pipeline.HandlerRun | src/Router.tsx:369-392 | the handler is called first, then only `out` and `catch` hooks |
| Pipeline.LeafRun | src/Router.tsx:352-369 | validation and handler never call a pipe, an `in` hook or a middleware |
| Pipeline.MiddlewaresRun | src/Router.tsx:341-351 | the middlewares and what follows never call a pipe or an `in` hook |
| Pipeline.ApplyPipes | src/Router.tsx:87-97 | the loop gives what `PipesRun` specifies |
| Pipeline.ApplyInterceptorsIn | src/Router.tsx:130-143 | the loop gives what `InboundRun` specifies |
| Pipeline.ApplyInterceptorsOut | src/Router.tsx:145-158 | the loop gives what `OutboundRun` specifies |
| Pipeline.Reply | src/Router.tsx:381-387 | sends what `ReplyRun` specifies |
| Pipeline.Serve | src/Router.tsx:328-392 | one request through the chain gives what `Respond` specifies |
| Pipeline.PipesComeFirst | src/Router.tsx:328-339 | no pipe's `use` runs after any other hook |
| Pipeline.PipeFailureSkipsRest | src/Router.tsx:330-336 | a throwing pipe sends the request to the error translator; no `in` hook, middleware or handler runs |
| Pipeline.InboundStopsAtFirstFalsy | src/Router.tsx:130-143 | the inbound stage answers false at the first falsy `in` result, and calls no later hook |
| Pipeline.InterceptorRejectionEndsChain | src/Router.tsx:337-338 | a falsy `in` result ends the chain without a response |
| Pipeline.OutboundComposes | src/Router.tsx:145-158 | the `out` hooks compose left to right, and a throw ends the fold |
| Pipeline.TwoOutHooks | src/Router.tsx:145-158 | with out hooks A then B, the message is B(A(result)) |
| Pipeline.MiddlewaresPass | src/Router.tsx:341-351 | middlewares that all call `next()` lead to the leaf's handlers |
| Pipeline.HandlerDecides | src/Router.tsx:369-392 | once admitted, a throw is translated, a plain undefined/null gets no response, and any other value is sent: text when falsy or a string, else JSON, status 200 |
| Pipeline.AsyncUndefinedIsSent | src/Router.tsx:371-385 | a promise resolving to undefined is sent as an empty 200 text response |

## Left out

- Rendering through React itself (`React.Children.map`, elements, `hasOwnProperty("__router_instance")`) and the application bootstrap that supplies the top router: a group is rendered with its router given.
- Express internals: routers are identifiers, and `use`/`get`/… are entries in a log.
- Asynchrony: every awaited hook is taken as settled. Concurrent requests and interleaving are not modelled.
- JavaScript values: numbers are integers and there is no NaN or fractions. Loose equality is modelled only for the comparisons the router makes (`out == true`, `out == "json"`, `out == "text"`, `result == undefined`).
- Class identity: a class is identified by a string key, as a JavaScript object key would be. Prototype-chain metadata, where a subclass shares its parent's `@Inject` list, is not modelled.
- A path prop that is not a string (kept as is by `createPath`): paths are optional strings.
- The text of router error messages: errors are a datatype carrying the same data.
- `handleErrors` rethrows an unhandled error wrapped in `new Error(e)`. The model carries the original thrown value in `Unhandled`.
- A thrown value without a `name` property (such as `undefined`): a thrown value here always has `name`, `message` and `statusCode`, possibly undefined.
- `ValidationPipe`'s own validation is a hook that returns or throws.
- JsValues.LooselyTrue: numbers are integers, and a string counts when, after trimming, it is a decimal numeral (optional "+", fraction and exponent) whose exact value is 1, or "0x", "0o" or "0b" followed by a numeral of value 1. A string whose value only rounds to 1 in double precision (such as "1.00000000000000001") is not counted. Objects with their own `valueOf` or `toString` are not modelled and never equal `true`.
- JsValues.LooselyWord: objects with their own `valueOf` or `toString` are not modelled and never equal the word.
- Routing.Router.RenderNested: what each nested group binds is stated by that group's own `Render` contract, not in terms of this group's registries; the plan of a whole tree (`CompilePlan.PlanGroup`) records mounts and bindings without their handler chains.
- Routing.Router.RenderGroup: the nested component is a fresh object, so its registries after rendering are not visible to the caller; only the server's log is stated.
- Routing.Router.Render: when a child fails, it states only that the log and the heap grew; which child fails first follows from the members it calls.
- RenderGeneration.ServicesFirst, RenderGeneration.GenerateRegisters, RenderGeneration.GenerateAllocates: stated for a `render` whose four `generate*` calls succeed; on failure `RenderGeneration.GenerateFails` gives the error, and the per-kind lemmas describe the registries reached.
