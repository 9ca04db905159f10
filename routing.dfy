/**
 * The `<Router>` group component: building its collaborator registries
 * (inheriting its parent's), creating and injecting collaborators, compiling
 * each leaf into a server binding, and rendering nested groups.
 */
module Routing {
  import opened Wrappers
  import opened Paths
  import opened Registries
  import opened Heaps
  import opened Routes
  import opened Express
  import opened Injection
  import opened CompilePlan
  import opened Generation

  /** The errors compiling a route tree raises. */
  datatype CompileError =
    /** `new C()` failed for a declared pipe, interceptor, filter or service (a `RouterException`). */
    | NotAClass(kind: Kind, cls: ClassId)
    /** `new C()` failed for a controller; this error is not wrapped. */
    | ControllerNotConstructible(cls: ClassId)
    /** Neither the leaf nor its group names a controller. */
    | MissingController(groupPath: string, path: string, verb: Option<Method>)
    /** The leaf has no (or an empty) `handle`. */
    | MissingHandle(groupPath: string, path: string, verb: Option<Method>)
    /** The controller has no truthy property named by `handle`. */
    | NoSuchHandler(controller: ClassId, handle: string, groupPath: string, path: string, verb: Option<Method>)

  /** Every stored instance is an object of the class it is stored under. */
  ghost predicate TypedBy(r: Registry, classOf: seq<ClassId>) {
    r.Valid() && forall c | c in r.inst :: r.inst[c] < |classOf| && classOf[r.inst[c]] == c
  }

  ghost predicate SnapshotTypedBy(s: seq<Entry>, classOf: seq<ClassId>) {
    forall i | 0 <= i < |s| :: s[i].1 < |classOf| && classOf[s[i].1] == s[i].0
  }

  lemma TypedGrows(r: Registry, a: seq<ClassId>, b: seq<ClassId>)
    requires TypedBy(r, a) && a <= b
    ensures TypedBy(r, b)
  {
    forall c | c in r.inst ensures b[r.inst[c]] == c {
      assert a[r.inst[c]] == b[r.inst[c]];
    }
  }

  lemma PutTyped(r: Registry, c: ClassId, o: InstId, classOf: seq<ClassId>)
    requires TypedBy(r, classOf) && o < |classOf| && classOf[o] == c
    ensures TypedBy(r.Put(c, o), classOf)
  {
    var r' := r.Put(c, o);
    forall d | d in r'.inst ensures r'.inst[d] < |classOf| && classOf[r'.inst[d]] == d {
      assert r'.Get(d) == if d == c then Some(o) else r.Get(d);
    }
  }

  lemma {:induction false} InstallTyped(s: seq<Entry>, classOf: seq<ClassId>)
    requires SnapshotTypedBy(s, classOf)
    ensures TypedBy(InstallAll(EMPTY, s), classOf)
  {
    if s != [] {
      InstallTyped(s[..|s| - 1], classOf);
    }
  }

  /** The snapshots a group was handed by its parent, per kind (None: not handed). */
  datatype Inherited = Inherited(
    pipes: Option<seq<Entry>>,
    interceptors: Option<seq<Entry>>,
    filters: Option<seq<Entry>>,
    services: Option<seq<Entry>>)
  {
    function Of(k: Kind): Option<seq<Entry>> {
      match k
      case Pipes => pipes
      case Interceptors => interceptors
      case Filters => filters
      case Services => services
    }

    ghost predicate TypedBy(classOf: seq<ClassId>) {
      forall k :: Of(k).Some? ==> SnapshotTypedBy(Of(k).value, classOf)
    }
  }

  lemma TypedSnapshotsGrow(h: Inherited, a: seq<ClassId>, b: seq<ClassId>)
    requires h.TypedBy(a) && a <= b
    ensures h.TypedBy(b)
  {
    forall k | h.Of(k).Some? ensures SnapshotTypedBy(h.Of(k).value, b) {
      var s := h.Of(k).value;
      forall i | 0 <= i < |s| ensures s[i].1 < |b| && b[s[i].1] == s[i].0 {
        assert a[s[i].1] == b[s[i].1];
      }
    }
  }

  lemma AllTypedGrow(hs: seq<Inherited>, a: seq<ClassId>, b: seq<ClassId>)
    requires forall q | 0 <= q < |hs| :: hs[q].TypedBy(a)
    requires a <= b
    ensures forall q | 0 <= q < |hs| :: hs[q].TypedBy(b)
  {
    forall q | 0 <= q < |hs| ensures hs[q].TypedBy(b) {
      TypedSnapshotsGrow(hs[q], a, b);
    }
  }

  lemma SnapshotTyped(r: Registry, ignore: bool, classOf: seq<ClassId>)
    requires TypedBy(r, classOf)
    ensures Snapshot(r, ignore).Some? ==> SnapshotTypedBy(Snapshot(r, ignore).value, classOf)
  {
    if !ignore {
      var s := r.Entries();
      forall i | 0 <= i < |s| ensures s[i].1 < |classOf| && classOf[s[i].1] == s[i].0 {
        assert s[i].0 in r.inst;
      }
    }
  }

  /** The snapshot a parent hands a nested group for one kind: none when the child ignores it. */
  function Snapshot(r: Registry, ignore: bool): Option<seq<Entry>>
    requires r.Valid()
  {
    if ignore then None else Some(r.Entries())
  }

  /** The registry a group starts a kind with, before its own declarations. */
  function Start(parent: Option<seq<Entry>>, ignore: bool): (r: Registry)
    ensures r.Valid()
  {
    if parent.Some? && !ignore then InstallAll(EMPTY, parent.value) else EMPTY
  }

  /**
   * Inheritance: a nested group that does not ignore its parent's collaborators
   * of a kind starts with exactly its parent's registry of that kind (same
   * classes, same order, the same shared instances); one that does starts empty.
   */
  lemma InheritanceRestores(r: Registry, ignore: bool)
    requires r.Valid()
    ensures Start(Snapshot(r, ignore), ignore) == if ignore then EMPTY else r
  {
    if !ignore {
      InstallSnapshotRestores(r);
    }
  }

  /** The error `generate<Kind>` raises when `failed` names a declared class that is not a class. */
  function DeclareError(k: Kind, failed: Option<ClassId>): (r: Result<(), CompileError>)
    ensures r.Err? <==> failed.Some?
    ensures r.Err? ==> r.error == NotAClass(k, failed.value)
  {
    if failed.Some? then Err(NotAClass(k, failed.value)) else Ok(())
  }

  /**
   * `generate<Kind>` on values, from the heap's allocation, fields and pipe
   * options: start from the parent's snapshot unless the group ignores it,
   * get or create each declared class in order and, for pipes, when the group
   * has `validate` options and nothing failed, register a new validation pipe
   * carrying them under its class.
   */
  function KindRun(prog: Program, props: GroupProps, k: Kind, parent: Option<seq<Entry>>, services: Registry,
                   classOf: seq<ClassId>, fields: Fields, params: map<InstId, Options>): (r: (Result<(), CompileError>, Gen, map<InstId, Options>))
    ensures r.1.reg.Valid()
  {
    var run := DeclaredRun(prog, k, Gen(Start(parent, props.IgnoresParent(k)), classOf, fields), services, props.Declared(k));
    var out := run.1;
    if run.0.None? && k == Pipes && props.validate.Some? then
      var o := |out.classOf|;
      (Ok(()), Gen(out.reg.Put(VALIDATION_PIPE, o), out.classOf + [VALIDATION_PIPE], out.fields), params[o := props.validate.value])
    else
      (DeclareError(k, run.0), out, params)
  }

  /** A group's registries and the heap once its `generate*` calls are done. */
  datatype Generated = Generated(services: Registry, pipes: Registry, interceptors: Registry, filters: Registry,
                                 classOf: seq<ClassId>, fields: Fields, params: map<InstId, Options>)
  {
    function Of(k: Kind): Registry {
      match k
      case Pipes => pipes
      case Interceptors => interceptors
      case Filters => filters
      case Services => services
    }
  }

  /**
   * The `generate*` calls of `render` on values, in its order (services, then
   * pipes, interceptors and filters, each injected from the services), stopping
   * at the first that fails; registries not reached stay empty.
   */
  function GenerateRun(prog: Program, props: GroupProps, inherited: Inherited,
                       classOf: seq<ClassId>, fields: Fields, params: map<InstId, Options>): (Result<(), CompileError>, Generated)
  {
    var s := KindRun(prog, props, Services, inherited.services, EMPTY, classOf, fields, params);
    if s.0.Err? then (s.0, Generated(s.1.reg, EMPTY, EMPTY, EMPTY, s.1.classOf, s.1.fields, s.2))
    else FromPipes(prog, props, inherited, s.1.reg, s.1.classOf, s.1.fields, s.2)
  }

  /** The rest of `GenerateRun` once the services are generated: pipes, then the rest. */
  function FromPipes(prog: Program, props: GroupProps, inherited: Inherited, services: Registry,
                     classOf: seq<ClassId>, fields: Fields, params: map<InstId, Options>): (Result<(), CompileError>, Generated)
  {
    var p := KindRun(prog, props, Pipes, inherited.pipes, services, classOf, fields, params);
    if p.0.Err? then (p.0, Generated(services, p.1.reg, EMPTY, EMPTY, p.1.classOf, p.1.fields, p.2))
    else FromInterceptors(prog, props, inherited, services, p.1.reg, p.1.classOf, p.1.fields, p.2)
  }

  /** The rest of `GenerateRun` once the pipes are generated: interceptors, then filters. */
  function FromInterceptors(prog: Program, props: GroupProps, inherited: Inherited, services: Registry, pipes: Registry,
                            classOf: seq<ClassId>, fields: Fields, params: map<InstId, Options>): (Result<(), CompileError>, Generated)
  {
    var i := KindRun(prog, props, Interceptors, inherited.interceptors, services, classOf, fields, params);
    if i.0.Err? then (i.0, Generated(services, pipes, i.1.reg, EMPTY, i.1.classOf, i.1.fields, i.2)) else
    var f := KindRun(prog, props, Filters, inherited.filters, services, i.1.classOf, i.1.fields, i.2);
    (f.0, Generated(services, pipes, i.1.reg, f.1.reg, f.1.classOf, f.1.fields, f.2))
  }

  /** `handle` when it is truthy. */
  function HandleOf(leaf: LeafProps): Option<string> {
    if leaf.handle.Some? && leaf.handle.value != "" then leaf.handle else None
  }

  class Router {
    const heap: Heap
    const server: Server
    /** The `<Router>` element this component renders (always a group). */
    const node: Node
    /** The `__router_instance` it binds into. */
    const routerId: RouterId
    var controllers: Registry
    var pipes: Registry
    var interceptors: Registry
    var filters: Registry
    var services: Registry

    constructor (heap: Heap, server: Server, node: Node, routerId: RouterId)
      requires node.Group?
      ensures this.heap == heap && this.server == server && this.node == node && this.routerId == routerId
      ensures Valid() && Fresh()
    {
      this.heap, this.server, this.node, this.routerId := heap, server, node, routerId;
      controllers, pipes, interceptors, filters, services := EMPTY, EMPTY, EMPTY, EMPTY, EMPTY;
    }

    ghost predicate Valid()
      reads this, heap
    {
      && node.Group?
      && TypedBy(controllers, heap.classOf)
      && TypedBy(pipes, heap.classOf)
      && TypedBy(interceptors, heap.classOf)
      && TypedBy(filters, heap.classOf)
      && TypedBy(services, heap.classOf)
    }

    /** All registries are as a newly constructed component has them. */
    ghost predicate Fresh()
      reads this
    {
      controllers == EMPTY && pipes == EMPTY && interceptors == EMPTY && filters == EMPTY && services == EMPTY
    }

    function Reg(k: Kind): Registry
      reads this
    {
      match k
      case Pipes => pipes
      case Interceptors => interceptors
      case Filters => filters
      case Services => services
    }

    /**
     * The services the value-level run of kind `k` injects from: this group's
     * services for pipes, interceptors and filters; none for services, which
     * are injected from their own registry as it grows.
     */
    function Injecting(k: Kind): Registry
      reads this
    {
      if k == Services then EMPTY else services
    }

    /** The registries generating kind `k` leaves alone: the controllers and the other three kinds. */
    function Others(k: Kind): (Registry, Registry, Registry, Registry)
      reads this
    {
      match k
      case Pipes => (controllers, interceptors, filters, services)
      case Interceptors => (controllers, pipes, filters, services)
      case Filters => (controllers, pipes, interceptors, services)
      case Services => (controllers, pipes, interceptors, filters)
    }

    /** What generating kind `k` works on: its registry and the heap's objects. */
    function State(k: Kind): Gen
      reads this, heap
    {
      Gen(Reg(k), heap.classOf, heap.fields)
    }

    method SetReg(k: Kind, x: Registry)
      requires Valid() && TypedBy(x, heap.classOf)
      modifies this
      ensures Valid()
      ensures Reg(k) == x
      ensures Others(k) == old(Others(k))
    {
      match k {
        case Pipes => pipes := x;
        case Interceptors => interceptors := x;
        case Filters => filters := x;
        case Services => services := x;
      }
    }

    /**
     * Sets, on object `o`, each field its class's `@Inject` entries name to
     * this group's service of the declared class, when there is one.
     */
    method InjectDependencies(o: InstId)
      requires o < |heap.classOf|
      modifies heap
      ensures heap.classOf == old(heap.classOf) && heap.meta == old(heap.meta) && heap.params == old(heap.params)
      ensures heap.fields == Injected(old(heap.fields), heap.Classes().Decls(heap.classOf[o]), services.inst, o)
    {
      var metaData := heap.Classes().Decls(heap.classOf[o]);
      var i := 0;
      while i < |metaData|
        invariant 0 <= i <= |metaData|
        invariant heap.fields == Injected(old(heap.fields), metaData[..i], services.inst, o)
        invariant heap.classOf == old(heap.classOf) && heap.meta == old(heap.meta) && heap.params == old(heap.params)
      {
        var meta := metaData[i];
        var service := services.Get(meta.declared);
        if service.Some? {
          heap.fields := heap.fields[(o, meta.prop) := service.value];
        }
        assert metaData[..i + 1][..i] == metaData[..i];
        i := i + 1;
      }
      assert metaData[..i] == metaData;
    }

    /**
     * `getPipe`, `getInterceptor`, `getFilter`, `getService`: the registered
     * instance, or a new one, injected and registered. A service is
     * registered before it is injected (so it can receive itself), the others
     * after.
     */
    method GetOrCreate(k: Kind, c: ClassId) returns (r: Result<InstId, CompileError>)
      requires Valid()
      modifies this, heap
      ensures Valid()
      ensures Others(k) == old(Others(k))
      ensures heap.meta == old(heap.meta) && heap.params == old(heap.params)
      ensures c in old(Reg(k).inst) ==>
        && r == Ok(old(Reg(k).inst[c]))
        && Reg(k) == old(Reg(k)) && heap.classOf == old(heap.classOf) && heap.fields == old(heap.fields)
      ensures c !in old(Reg(k).inst) && !heap.Constructible(c) ==>
        && r == Err(NotAClass(k, c))
        && Reg(k) == old(Reg(k)) && heap.classOf == old(heap.classOf) && heap.fields == old(heap.fields)
      ensures c !in old(Reg(k).inst) && heap.Constructible(c) ==>
        var o := |old(heap.classOf)|;
        && r == Ok(o)
        && heap.classOf == old(heap.classOf) + [c]
        && Reg(k) == old(Reg(k)).Put(c, o)
        && heap.fields == Injected(old(heap.fields), heap.Classes().Decls(c), services.inst, o)
    {
      var found := Reg(k).Get(c);
      if found.Some? {
        return Ok(found.value);
      }
      var made := heap.New(c);
      if made.None? {
        return Err(NotAClass(k, c));
      }
      StillTyped(old(heap.classOf));
      Register(k, c, made.value);
      r := Ok(made.value);
    }

    /**
     * Memoisation: asking a group twice for the same class gives the same
     * answer, the same object when the first call produced one.
     */
    method GetOrCreateTwice(k: Kind, c: ClassId) returns (first: Result<InstId, CompileError>, second: Result<InstId, CompileError>)
      requires Valid()
      modifies this, heap
      ensures second == first
      ensures first.Ok? ==> Reg(k).Get(c) == Some(first.value)
    {
      first := GetOrCreate(k, c);
      second := GetOrCreate(k, c);
    }

    /** Registers the new object `o` of class `c` under kind `k` and injects it, in the order the kind calls for. */
    method Register(k: Kind, c: ClassId, o: InstId)
      requires Valid() && o < |heap.classOf| && heap.classOf[o] == c
      modifies this, heap
      ensures Valid()
      ensures Others(k) == old(Others(k))
      ensures heap.classOf == old(heap.classOf) && heap.meta == old(heap.meta) && heap.params == old(heap.params)
      ensures Reg(k) == old(Reg(k)).Put(c, o)
      ensures heap.fields == Injected(old(heap.fields), heap.Classes().Decls(c), services.inst, o)
    {
      RegTyped(k);
      PutTyped(Reg(k), c, o, heap.classOf);
      if k == Services {
        services := services.Put(c, o);
        InjectDependencies(o);
      } else {
        InjectDependencies(o);
        SetReg(k, Reg(k).Put(c, o));
        assert services == Reg(Services) == old(services);
      }
    }

    /** The registries stay typed when the heap only allocates. */
    lemma StillTyped(before: seq<ClassId>)
      requires node.Group? && TypedBy(controllers, before)
      requires TypedBy(pipes, before) && TypedBy(interceptors, before)
      requires TypedBy(filters, before) && TypedBy(services, before)
      requires before <= heap.classOf
      ensures Valid()
    {
      TypedGrows(controllers, before, heap.classOf);
      TypedGrows(pipes, before, heap.classOf);
      TypedGrows(interceptors, before, heap.classOf);
      TypedGrows(filters, before, heap.classOf);
      TypedGrows(services, before, heap.classOf);
    }

    /** Every kind's registry is typed in a valid component. */
    lemma RegTyped(k: Kind)
      requires Valid()
      ensures TypedBy(Reg(k), heap.classOf)
    {
    }

    /** Installs the parent's snapshot of kind `k`, unless this group ignores it. */
    method Inherit(k: Kind, parent: Option<seq<Entry>>)
      requires Valid() && Reg(k) == EMPTY
      requires parent.Some? ==> SnapshotTypedBy(parent.value, heap.classOf)
      modifies this
      ensures Valid()
      ensures Reg(k) == Start(parent, node.props.IgnoresParent(k))
      ensures Others(k) == old(Others(k))
    {
      var installed := EMPTY;
      if parent.Some? && !node.props.IgnoresParent(k) {
        var snapshot := parent.value;
        var i := 0;
        while i < |snapshot|
          invariant 0 <= i <= |snapshot|
          invariant installed == InstallAll(EMPTY, snapshot[..i])
        {
          assert snapshot[..i + 1][..i] == snapshot[..i];
          installed := installed.Put(snapshot[i].0, snapshot[i].1);
          i := i + 1;
        }
        assert snapshot[..i] == snapshot;
        InstallTyped(snapshot, heap.classOf);
      }
      SetReg(k, installed);
    }

    /** `get<Kind>(c)` for one declared class, as the value-level `Acquired` describes it. */
    method Declare(k: Kind, c: ClassId) returns (r: Result<InstId, CompileError>)
      requires Valid()
      modifies this, heap
      ensures Valid()
      ensures Others(k) == old(Others(k))
      ensures old(heap.classOf) <= heap.classOf && heap.meta == old(heap.meta) && heap.params == old(heap.params)
      ensures Injecting(k) == old(Injecting(k))
      ensures var a := Acquired(heap.Classes(), k, old(State(k)), old(Injecting(k)), c);
        if a.Some? then r.Ok? && State(k) == a.value
        else r == Err(NotAClass(k, c)) && State(k) == old(State(k))
    {
      RegTyped(k);
      r := GetOrCreate(k, c);
      if k != Services {
        assert Reg(Services) == old(Reg(Services));
      }
    }

    /** One turn of that loop: `Declare` the first class left, one step of `DeclaredRun`. */
    method DeclareFirst(k: Kind, declared: seq<ClassId>, ghost prog: Program, ghost run: (Option<ClassId>, Gen))
      returns (r: Result<InstId, CompileError>)
      requires Valid() && declared != [] && heap.Classes() == prog
      requires DeclaredRun(prog, k, State(k), Injecting(k), declared) == run
      modifies this, heap
      ensures Valid()
      ensures Others(k) == old(Others(k))
      ensures old(heap.classOf) <= heap.classOf && heap.meta == old(heap.meta) && heap.params == old(heap.params)
      ensures Injecting(k) == old(Injecting(k))
      ensures r.Ok? ==> DeclaredRun(prog, k, State(k), Injecting(k), declared[1..]) == run
      ensures r.Err? ==> r.error == NotAClass(k, declared[0]) && run == (Some(declared[0]), State(k))
    {
      DeclaredNext(prog, k, State(k), Injecting(k), declared, declared[1..]);
      r := Declare(k, declared[0]);
    }

    /**
     * `props.<kind>.forEach(get<Kind>)`: gets or creates each class this group
     * declares for kind `k`, in order, stopping at the first whose `new` throws.
     */
    method CreateDeclared(k: Kind) returns (r: Result<(), CompileError>)
      requires Valid()
      modifies this, heap
      ensures Valid()
      ensures Others(k) == old(Others(k))
      ensures old(heap.classOf) <= heap.classOf && heap.meta == old(heap.meta) && heap.params == old(heap.params)
      ensures var run := DeclaredRun(heap.Classes(), k, old(State(k)), old(Injecting(k)), node.props.Declared(k));
        r == DeclareError(k, run.0) && State(k) == run.1
    {
      var declared := node.props.Declared(k);
      ghost var source := Injecting(k);
      ghost var prog := heap.Classes();
      ghost var run := DeclaredRun(prog, k, State(k), source, declared);
      var i := 0;
      while i < |declared|
        invariant 0 <= i <= |declared|
        invariant Valid()
        invariant Others(k) == old(Others(k))
        invariant old(heap.classOf) <= heap.classOf && heap.meta == old(heap.meta) && heap.params == old(heap.params)
        invariant Injecting(k) == source
        invariant DeclaredRun(prog, k, State(k), source, declared[i..]) == run
      {
        assert declared[i..][0] == declared[i] && declared[i..][1..] == declared[i + 1..];
        var got := DeclareFirst(k, declared[i..], prog, run);
        if got.Err? {
          r := Err(got.error);
          return;
        }
        i := i + 1;
      }
      r := Ok(());
    }

    /** `new ValidationPipe()` with `params` set to `options`, registered under its class. */
    method AddValidationPipe(options: Options)
      requires Valid()
      modifies this, heap
      ensures Valid()
      ensures heap.classOf == old(heap.classOf) + [VALIDATION_PIPE]
      ensures pipes == old(pipes).Put(VALIDATION_PIPE, |old(heap.classOf)|)
      ensures heap.params == old(heap.params)[|old(heap.classOf)| := options]
      ensures heap.fields == old(heap.fields) && heap.meta == old(heap.meta)
      ensures Others(Pipes) == old(Others(Pipes))
    {
      var vp := heap.NewValidationPipe(options);
      StillTyped(old(heap.classOf));
      PutTyped(pipes, VALIDATION_PIPE, vp, heap.classOf);
      pipes := pipes.Put(VALIDATION_PIPE, vp);
    }

    /**
     * `generateInterceptors`, `generateFilters`, `generateServices`, and the
     * first part of `generatePipes`: install the parent's snapshot unless this
     * group ignores it, then get or create each declared class in order.
     */
    method Generate(k: Kind, parent: Option<seq<Entry>>) returns (r: Result<(), CompileError>)
      requires Valid() && Reg(k) == EMPTY
      requires parent.Some? ==> SnapshotTypedBy(parent.value, heap.classOf)
      modifies this, heap
      ensures Valid()
      ensures Others(k) == old(Others(k))
      ensures old(heap.classOf) <= heap.classOf && heap.meta == old(heap.meta) && heap.params == old(heap.params)
      ensures var start := Start(parent, node.props.IgnoresParent(k));
        var run := DeclaredRun(heap.Classes(), k, Gen(start, old(heap.classOf), old(heap.fields)), old(Injecting(k)), node.props.Declared(k));
        r == DeclareError(k, run.0) && State(k) == run.1
    {
      Inherit(k, parent);
      if k != Services {
        assert Reg(Services) == old(Reg(Services));
      }
      r := CreateDeclared(k);
    }

    /**
     * `generatePipes`: as `Generate`, then, when the group has `validate`
     * options, a validation pipe carrying them is registered under its class,
     * in place of an inherited one if there is one.
     */
    method GeneratePipes(parent: Option<seq<Entry>>) returns (r: Result<(), CompileError>)
      requires Valid() && pipes == EMPTY
      requires parent.Some? ==> SnapshotTypedBy(parent.value, heap.classOf)
      modifies this, heap
      ensures Valid()
      ensures Others(Pipes) == old(Others(Pipes))
      ensures old(heap.classOf) <= heap.classOf && heap.meta == old(heap.meta)
      ensures var run := KindRun(heap.Classes(), node.props, Pipes, parent, old(services), old(heap.classOf), old(heap.fields), old(heap.params));
        r == run.0 && Gen(pipes, heap.classOf, heap.fields) == run.1 && heap.params == run.2
    {
      ghost var start := Start(parent, node.props.IgnoresParent(Pipes));
      ghost var run := DeclaredRun(heap.Classes(), Pipes, Gen(start, heap.classOf, heap.fields), services, node.props.Declared(Pipes));
      r := Generate(Pipes, parent);
      assert r == DeclareError(Pipes, run.0) && Gen(pipes, heap.classOf, heap.fields) == run.1;
      if r.Ok? && node.props.validate.Some? {
        AddValidationPipe(node.props.validate.value);
      }
    }

    /** The controller a leaf uses: its own, else its group's. */
    function ControllerFor(leaf: LeafProps): Option<ClassId>
      reads this
      requires node.Group?
    {
      if leaf.controller.Some? then leaf.controller else node.props.controller
    }

    /** A controller is named, and is either registered already or constructible. */
    predicate Resolves(leaf: LeafProps)
      reads this
      requires node.Group?
    {
      ControllerFor(leaf).Some? && (ControllerFor(leaf).value in controllers.inst || heap.Constructible(ControllerFor(leaf).value))
    }

    /** The verdict on a leaf whose controller object is `o`, after injection. */
    function LeafVerdict(leaf: LeafProps, o: InstId): Result<(), CompileError>
      reads this, heap
      requires node.Group? && ControllerFor(leaf).Some? && o < |heap.classOf|
    {
      var groupPath := CreatePath(node.props.path);
      var path := CreatePath(leaf.path);
      if HandleOf(leaf).None? then Err(MissingHandle(groupPath, path, leaf.verb))
      else if leaf.verb.Some? && !heap.HasMember(o, HandleOf(leaf).value) then
        Err(NoSuchHandler(ControllerFor(leaf).value, HandleOf(leaf).value, groupPath, path, leaf.verb))
      else Ok(())
    }

    /** What a leaf that passes its checks adds to the server: one binding when it has a method. */
    function Binding(leaf: LeafProps, o: InstId): seq<Event>
      reads this
      requires node.Group? && HandleOf(leaf).Some?
    {
      if leaf.verb.None? then []
      else
        var chain := Chain(pipes, interceptors, filters, node.props.middlewares, leaf.validate, o, HandleOf(leaf).value);
        [Bind(routerId, leaf.verb.value, CreatePath(leaf.path), chain)]
    }

    /** A binding this group makes runs with this group's pipes, interceptors, filters and middlewares. */
    predicate ChainedHere(e: Event)
      reads this`pipes, this`interceptors, this`filters
    {
      e.Bind? ==>
        && node.Group?
        && e.router == routerId
        && e.chain.pipes == pipes && e.chain.interceptors == interceptors && e.chain.filters == filters
        && e.chain.middlewares == node.props.middlewares
    }

    /** Every binding in `log` was made by this group. */
    ghost predicate AllChainedHere(log: seq<Event>)
      reads this`pipes, this`interceptors, this`filters
    {
      forall e | e in log :: ChainedHere(e)
    }

    lemma ChainedGrow(before: seq<Event>, after: seq<Event>, start: nat)
      requires start <= |before| && before <= after
      requires AllChainedHere(before[start..]) && AllChainedHere(after[|before|..])
      ensures AllChainedHere(after[start..])
    {
      assert after[start..] == before[start..] + after[|before|..];
    }

    /** The group's instance of controller class `c`, created on first use (None: `new c()` throws). */
    method GetController(c: ClassId) returns (r: Option<InstId>)
      requires Valid()
      modifies this, heap
      ensures Valid()
      ensures pipes == old(pipes) && interceptors == old(interceptors)
      ensures filters == old(filters) && services == old(services)
      ensures heap.fields == old(heap.fields) && heap.meta == old(heap.meta) && heap.params == old(heap.params)
      ensures c in old(controllers.inst) ==>
        r == Some(old(controllers.inst[c])) && controllers == old(controllers) && heap.classOf == old(heap.classOf)
      ensures c !in old(controllers.inst) && !heap.Constructible(c) ==>
        r == None && controllers == old(controllers) && heap.classOf == old(heap.classOf)
      ensures c !in old(controllers.inst) && heap.Constructible(c) ==>
        && r == Some(|old(heap.classOf)|)
        && controllers == old(controllers).Put(c, |old(heap.classOf)|)
        && heap.classOf == old(heap.classOf) + [c]
    {
      if c in controllers.inst {
        return Some(controllers.inst[c]);
      }
      r := heap.New(c);
      if r.Some? {
        StillTyped(old(heap.classOf));
        PutTyped(controllers, c, r.value, heap.classOf);
        controllers := controllers.Put(c, r.value);
      }
    }

    /**
     * Compiles one leaf child: resolve its controller (the leaf's, else the
     * group's), create it on first use, inject it again, check its handler,
     * and bind the handler chain under the leaf's method and path.
     */
    method CompileLeaf(leaf: LeafProps) returns (r: Result<(), CompileError>)
      requires Valid()
      modifies this, heap, server
      ensures Valid()
      ensures pipes == old(pipes) && interceptors == old(interceptors)
      ensures filters == old(filters) && services == old(services)
      ensures server.routerCount == old(server.routerCount)
      ensures old(heap.classOf) <= heap.classOf && heap.meta == old(heap.meta) && heap.params == old(heap.params)
      ensures r.Err? ==> server.log == old(server.log)
      ensures ControllerFor(leaf).None? ==>
        r == Err(MissingController(CreatePath(node.props.path), CreatePath(leaf.path), leaf.verb))
      ensures ControllerFor(leaf).Some? && !old(Resolves(leaf)) ==>
        r == Err(ControllerNotConstructible(ControllerFor(leaf).value))
      ensures old(Resolves(leaf)) ==>
        var ctl := ControllerFor(leaf).value;
        && ctl in controllers.inst
        && (ctl in old(controllers.inst) ==> controllers == old(controllers) && heap.classOf == old(heap.classOf))
        && (ctl !in old(controllers.inst) ==>
              controllers == old(controllers).Put(ctl, |old(heap.classOf)|) && heap.classOf == old(heap.classOf) + [ctl])
        && heap.fields == Injected(old(heap.fields), heap.Classes().Decls(ctl), services.inst, controllers.inst[ctl])
        && r == LeafVerdict(leaf, controllers.inst[ctl])
        && (r.Ok? ==> server.log == old(server.log) + Binding(leaf, controllers.inst[ctl]))
      ensures r.Ok? ==>
        && ControllerFor(leaf).Some? && ControllerFor(leaf).value in controllers.inst
        && HandleOf(leaf).Some?
        && (leaf.verb.Some? ==> heap.HasMember(controllers.inst[ControllerFor(leaf).value], HandleOf(leaf).value))
    {
      var routerPath := CreatePath(node.props.path);
      var childPath := CreatePath(leaf.path);
      var controller: ClassId;
      if leaf.controller.Some? {
        controller := leaf.controller.value;
      } else if node.props.controller.Some? {
        controller := node.props.controller.value;
      } else {
        return Err(MissingController(routerPath, childPath, leaf.verb));
      }
      var found := GetController(controller);
      if found.None? {
        return Err(ControllerNotConstructible(controller));
      }
      var controllerInstance := found.value;
      InjectDependencies(controllerInstance);
      var handlerName: string;
      if leaf.handle.Some? && leaf.handle.value != "" {
        handlerName := leaf.handle.value;
      } else {
        return Err(MissingHandle(routerPath, childPath, leaf.verb));
      }
      if leaf.verb.Some? && !heap.HasMember(controllerInstance, handlerName) {
        return Err(NoSuchHandler(controller, handlerName, routerPath, childPath, leaf.verb));
      }
      if leaf.verb.Some? {
        var chain := Chain(pipes, interceptors, filters, node.props.middlewares, leaf.validate, controllerInstance, handlerName);
        server.Route(routerId, leaf.verb.value, childPath, chain);
      }
      r := Ok(());
    }

    /** A leaf child of `Children.map`: compiled; on success the server got that leaf's shape. */
    method HandleLeaf(leaf: LeafProps) returns (r: Result<(), CompileError>)
      requires Valid()
      modifies this, heap, server
      ensures Valid()
      ensures pipes == old(pipes) && interceptors == old(interceptors)
      ensures filters == old(filters) && services == old(services)
      ensures old(heap.classOf) <= heap.classOf && heap.meta == old(heap.meta)
      ensures server.routerCount == old(server.routerCount)
      ensures old(server.log) <= server.log
      ensures r.Ok? ==>
        && ControllerFor(leaf).Some? && ControllerFor(leaf).value in controllers.inst && HandleOf(leaf).Some?
        && server.log == old(server.log) + Binding(leaf, controllers.inst[ControllerFor(leaf).value])
      ensures r.Ok? ==> Shapes(server.log[|old(server.log)|..]) == ChildShapes(Leaf(leaf), routerId, server.routerCount)
      ensures r.Ok? ==> forall e | e in server.log[|old(server.log)|..] :: ChainedHere(e)
    {
      r := CompileLeaf(leaf);
      if r.Ok? {
        var o := controllers.inst[ControllerFor(leaf).value];
        assert server.log == old(server.log) + Binding(leaf, o);
        assert server.log[|old(server.log)|..] == Binding(leaf, o);
        if leaf.verb.Some? {
          assert Binding(leaf, o) == [] + Binding(leaf, o);
        }
      }
      assert r.Err? ==> server.log[|old(server.log)|..] == [];
    }

    /**
     * A nested group child of `Children.map`: a new router, mounted under the
     * child's path, and the snapshots the child will inherit.
     */
    method MountChild(child: GroupProps) returns (router: RouterId, handed: Inherited)
      requires Valid()
      modifies server
      ensures router == old(server.routerCount) && server.routerCount == router + 1
      ensures server.log == old(server.log) + [Mount(routerId, CreatePath(child.path), router)]
      ensures forall cs :: Shapes(server.log[|old(server.log)|..]) == ChildShapes(Group(child, cs), routerId, router)
      ensures handed == Forwarded(child) && handed.TypedBy(heap.classOf)
    {
      router := server.NewRouter();
      server.Use(routerId, CreatePath(child.path), router);
      assert server.log[|old(server.log)|..] == [Mount(routerId, CreatePath(child.path), router)];
      assert [Mount(routerId, CreatePath(child.path), router)] == [] + [Mount(routerId, CreatePath(child.path), router)];
      ForwardedTyped(child);
      handed := Forwarded(child);
    }

    /** One child of `Children.map`, `i` being its index. */
    method HandleChild(child: Node, i: nat) returns (r: Result<(), CompileError>, entry: seq<(nat, RouterId)>, handed: seq<Inherited>)
      requires Valid()
      modifies this, heap, server
      ensures Valid()
      ensures pipes == old(pipes) && interceptors == old(interceptors)
      ensures filters == old(filters) && services == old(services)
      ensures old(heap.classOf) <= heap.classOf && heap.meta == old(heap.meta)
      ensures old(server.log) <= server.log
      ensures r.Ok? ==>
        && Shapes(server.log[|old(server.log)|..]) == ChildShapes(child, routerId, old(server.routerCount))
        && entry == (if child.Group? then [(i, old(server.routerCount))] else [])
        && server.routerCount == old(server.routerCount) + |entry|
        && |handed| == |entry|
        && forall q | 0 <= q < |handed| :: handed[q].TypedBy(heap.classOf)
      ensures r.Ok? && child.Group? ==> handed == [Forwarded(child.props)]
      ensures r.Ok? && child.Leaf? ==>
        && ControllerFor(child.leaf).Some? && ControllerFor(child.leaf).value in controllers.inst && HandleOf(child.leaf).Some?
        && server.log == old(server.log) + Binding(child.leaf, controllers.inst[ControllerFor(child.leaf).value])
      ensures r.Ok? ==> forall e | e in server.log[|old(server.log)|..] :: ChainedHere(e)
    {
      match child {
        case Group(childProps, _) =>
          var router, h := MountChild(childProps);
          r, entry, handed := Ok(()), [(i, router)], [h];
        case Leaf(leafProps) =>
          r := HandleLeaf(leafProps);
          entry, handed := [], [];
      }
    }

    /** The snapshots this group hands a nested group with props `child`. */
    function Forwarded(child: GroupProps): Inherited
      reads this`pipes, this`interceptors, this`filters, this`services
      requires pipes.Valid() && interceptors.Valid() && filters.Valid() && services.Valid()
    {
      Inherited(
        Snapshot(pipes, child.ignoreParentPipes),
        Snapshot(interceptors, child.ignoreParentInterceptors),
        Snapshot(filters, child.ignoreParentFilters),
        Snapshot(services, child.ignoreParentServices))
    }

    /** `handed[q]` is what this group forwards to the nested group that `pending[q]` names. */
    ghost predicate HandedTo(pending: seq<(nat, RouterId)>, handed: seq<Inherited>)
      reads this`pipes, this`interceptors, this`filters, this`services
    {
      && node.Group?
      && pipes.Valid() && interceptors.Valid() && filters.Valid() && services.Valid()
      && |handed| == |pending|
      && forall q | 0 <= q < |handed| ::
           NestedAt(node, pending[q]) && handed[q] == Forwarded(node.children[pending[q].0].props)
    }

    /** The forwarded snapshots, extended by those of child `i` (its router is `id`). */
    lemma HandedSnoc(pending: seq<(nat, RouterId)>, handed: seq<Inherited>, i: nat, id: RouterId,
                     entry: seq<(nat, RouterId)>, more: seq<Inherited>)
      requires HandedTo(pending, handed) && i < |node.children|
      requires entry == (if node.children[i].Group? then [(i, id)] else []) && |more| == |entry|
      requires node.children[i].Group? ==> more == [Forwarded(node.children[i].props)]
      ensures HandedTo(pending + entry, handed + more)
    {
    }

    lemma ForwardedTyped(child: GroupProps)
      requires Valid()
      ensures Forwarded(child).TypedBy(heap.classOf)
    {
      SnapshotTyped(pipes, child.ignoreParentPipes, heap.classOf);
      SnapshotTyped(interceptors, child.ignoreParentInterceptors, heap.classOf);
      SnapshotTyped(filters, child.ignoreParentFilters, heap.classOf);
      SnapshotTyped(services, child.ignoreParentServices, heap.classOf);
      var f := Forwarded(child);
      forall k | f.Of(k).Some? ensures SnapshotTypedBy(f.Of(k).value, heap.classOf) {
        match k
        case Pipes =>
        case Interceptors =>
        case Filters =>
        case Services =>
      }
    }

    /** `generatePipes` for pipes, `Generate` for the other kinds, with what `render` relies on. */
    method GenerateKind(k: Kind, inherited: Inherited) returns (r: Result<(), CompileError>)
      requires Valid() && Reg(k) == EMPTY && inherited.TypedBy(heap.classOf)
      modifies this, heap
      ensures Valid() && inherited.TypedBy(heap.classOf)
      ensures Others(k) == old(Others(k))
      ensures old(heap.classOf) <= heap.classOf && heap.meta == old(heap.meta)
      ensures var run := KindRun(heap.Classes(), node.props, k, inherited.Of(k), old(Injecting(k)), old(heap.classOf), old(heap.fields), old(heap.params));
        r == run.0 && State(k) == run.1 && heap.params == run.2
    {
      if k == Pipes {
        r := GeneratePipes(inherited.Of(Pipes));
      } else {
        r := Generate(k, inherited.Of(k));
      }
      TypedSnapshotsGrow(inherited, old(heap.classOf), heap.classOf);
    }

    /** The four `generate*` calls, in the order `render` makes them: services, pipes, interceptors, filters. */
    method GenerateAll(inherited: Inherited) returns (r: Result<(), CompileError>)
      requires Valid() && Fresh() && inherited.TypedBy(heap.classOf)
      modifies this, heap
      ensures Valid()
      ensures old(heap.classOf) <= heap.classOf && heap.meta == old(heap.meta)
      ensures var run := GenerateRun(heap.Classes(), node.props, inherited, old(heap.classOf), old(heap.fields), old(heap.params));
        r == run.0 && Generated(services, pipes, interceptors, filters, heap.classOf, heap.fields, heap.params) == run.1
    {
      ghost var s := KindRun(heap.Classes(), node.props, Services, inherited.services, EMPTY, heap.classOf, heap.fields, heap.params);
      r := GenerateKind(Services, inherited);
      assert r == s.0 && State(Services) == s.1 && heap.params == s.2;
      if r.Err? {
        assert Reg(Pipes) == EMPTY && Reg(Interceptors) == EMPTY && Reg(Filters) == EMPTY;
        return;
      }
      r := GenerateFromPipes(inherited);
    }

    /** Pipes, interceptors and filters, once the services are generated. */
    method GenerateFromPipes(inherited: Inherited) returns (r: Result<(), CompileError>)
      requires Valid() && inherited.TypedBy(heap.classOf)
      requires Reg(Pipes) == EMPTY && Reg(Interceptors) == EMPTY && Reg(Filters) == EMPTY
      modifies this, heap
      ensures Valid()
      ensures old(heap.classOf) <= heap.classOf && heap.meta == old(heap.meta)
      ensures var run := FromPipes(heap.Classes(), node.props, inherited, old(services), old(heap.classOf), old(heap.fields), old(heap.params));
        r == run.0 && Generated(services, pipes, interceptors, filters, heap.classOf, heap.fields, heap.params) == run.1
    {
      ghost var p := KindRun(heap.Classes(), node.props, Pipes, inherited.pipes, services, heap.classOf, heap.fields, heap.params);
      r := GenerateKind(Pipes, inherited);
      assert r == p.0 && State(Pipes) == p.1 && heap.params == p.2;
      if r.Err? {
        assert Reg(Interceptors) == EMPTY && Reg(Filters) == EMPTY;
        return;
      }
      r := GenerateFromInterceptors(inherited);
    }

    /** Interceptors and filters, once the services and pipes are generated. */
    method GenerateFromInterceptors(inherited: Inherited) returns (r: Result<(), CompileError>)
      requires Valid() && inherited.TypedBy(heap.classOf)
      requires Reg(Interceptors) == EMPTY && Reg(Filters) == EMPTY
      modifies this, heap
      ensures Valid()
      ensures old(heap.classOf) <= heap.classOf && heap.meta == old(heap.meta)
      ensures var run := FromInterceptors(heap.Classes(), node.props, inherited, old(services), old(pipes), old(heap.classOf), old(heap.fields), old(heap.params));
        r == run.0 && Generated(services, pipes, interceptors, filters, heap.classOf, heap.fields, heap.params) == run.1
    {
      ghost var i := KindRun(heap.Classes(), node.props, Interceptors, inherited.interceptors, services, heap.classOf, heap.fields, heap.params);
      r := GenerateKind(Interceptors, inherited);
      assert r == i.0 && State(Interceptors) == i.1 && heap.params == i.2;
      if r.Err? {
        assert Reg(Filters) == EMPTY;
        return;
      }
      ghost var f := KindRun(heap.Classes(), node.props, Filters, inherited.filters, services, heap.classOf, heap.fields, heap.params);
      r := GenerateKind(Filters, inherited);
      assert r == f.0 && State(Filters) == f.1 && heap.params == f.2;
      assert Reg(Interceptors) == i.1.reg;
    }

    /**
     * The body of `render`'s `Children.map`: a nested group gets a new router
     * mounted under its path, and the snapshots it will inherit are taken; a
     * leaf is compiled.
     */
    method CompileChildren() returns (r: Result<(), CompileError>, pending: seq<(nat, RouterId)>, handed: seq<Inherited>)
      requires Valid()
      modifies this, heap, server
      ensures pipes == old(pipes) && interceptors == old(interceptors)
      ensures filters == old(filters) && services == old(services)
      ensures old(heap.classOf) <= heap.classOf && heap.meta == old(heap.meta)
      ensures old(server.log) <= server.log
      ensures r.Ok? ==>
        && Shapes(server.log[|old(server.log)|..]) == MapShapes(node.children, routerId, old(server.routerCount))
        && pending == Pending(node.children, old(server.routerCount))
        && server.routerCount == old(server.routerCount) + |pending|
        && |handed| == |pending|
        && (forall q | 0 <= q < |handed| :: handed[q].TypedBy(heap.classOf))
        && HandedTo(pending, handed)
      ensures r.Ok? ==> AllChainedHere(server.log[|old(server.log)|..])
    {
      ghost var start := |server.log|;
      ghost var first := server.routerCount;
      pending, handed := [], [];
      var i := 0;
      while i < |node.children|
        invariant 0 <= i <= |node.children|
        invariant Valid()
        invariant old(heap.classOf) <= heap.classOf && heap.meta == old(heap.meta)
        invariant old(server.log) <= server.log
        invariant pipes == old(pipes) && interceptors == old(interceptors)
        invariant filters == old(filters) && services == old(services)
        invariant MappedUpTo(i, start, first, pending, handed)
      {
        r, pending, handed := CompileChild(i, start, first, pending, handed);
        if r.Err? { return; }
        i := i + 1;
      }
      assert node.children[..i] == node.children;
      r := Ok(());
    }

    /** What `Children.map` has done once the first `i` children are handled, from log position `start` and router id `first` on. */
    ghost predicate MappedUpTo(i: nat, start: nat, first: RouterId, pending: seq<(nat, RouterId)>, handed: seq<Inherited>)
      reads this, heap, server
    {
      && node.Group? && i <= |node.children| && start <= |server.log|
      && Shapes(server.log[start..]) == MapShapes(node.children[..i], routerId, first)
      && pending == Pending(node.children[..i], first)
      && server.routerCount == first + |pending|
      && (forall q | 0 <= q < |handed| :: handed[q].TypedBy(heap.classOf))
      && HandedTo(pending, handed)
      && AllChainedHere(server.log[start..])
    }

    /** One turn of `Children.map`: child `i` handled, its router and snapshots added to `pending` and `handed`. */
    method CompileChild(i: nat, ghost start: nat, ghost first: RouterId, pending: seq<(nat, RouterId)>, handed: seq<Inherited>)
      returns (r: Result<(), CompileError>, pending': seq<(nat, RouterId)>, handed': seq<Inherited>)
      requires Valid() && i < |node.children| && MappedUpTo(i, start, first, pending, handed)
      modifies this, heap, server
      ensures Valid()
      ensures pipes == old(pipes) && interceptors == old(interceptors)
      ensures filters == old(filters) && services == old(services)
      ensures old(heap.classOf) <= heap.classOf && heap.meta == old(heap.meta)
      ensures old(server.log) <= server.log
      ensures r.Ok? ==> MappedUpTo(i + 1, start, first, pending', handed')
    {
      ghost var before := server.log;
      ghost var heapBefore := heap.classOf;
      ghost var count := server.routerCount;
      var more, entry;
      r, entry, more := HandleChild(node.children[i], i);
      pending', handed' := pending + entry, handed + more;
      if r.Err? { return; }
      assert entry == if node.children[i].Group? then [(i, count)] else [];
      ChainedGrow(before, server.log, start);
      HandedSnoc(pending, handed, i, count, entry, more);
      PendingStep(node.children, i, first, pending, entry, count);
      ChildStep(node.children, i, routerId, first, start, before, server.log);
      AllTypedGrow(handed, heapBefore, heap.classOf);
    }

    /** The nested `<Router>` element for group `child`, rendered with router `rid` and the snapshots it was handed. */
    method RenderGroup(child: Node, rid: RouterId, inherited: Inherited) returns (r: Result<(), CompileError>)
      requires child.Group? && inherited.TypedBy(heap.classOf)
      modifies heap, server
      decreases child, 3
      ensures old(heap.classOf) <= heap.classOf && heap.meta == old(heap.meta)
      ensures old(server.log) <= server.log
      ensures r.Ok? ==>
        && Shapes(server.log[|old(server.log)|..]) == PlanGroup(child, rid, old(server.routerCount)).0
        && server.routerCount == PlanGroup(child, rid, old(server.routerCount)).1
    {
      var nested := new Router(heap, server, child, rid);
      r := nested.Render(inherited);
    }

    /** Renders the nested groups `pending`, in order, each with the snapshots it was handed. */
    method RenderNested(pending: seq<(nat, RouterId)>, handed: seq<Inherited>) returns (r: Result<(), CompileError>)
      requires HandedTo(pending, handed)
      requires forall q | 0 <= q < |handed| :: handed[q].TypedBy(heap.classOf)
      modifies heap, server
      decreases node, 0
      ensures old(heap.classOf) <= heap.classOf && heap.meta == old(heap.meta)
      ensures old(server.log) <= server.log
      ensures r.Ok? ==>
        && Shapes(server.log[|old(server.log)|..]) == PlanNested(node, pending, 0, old(server.routerCount)).0
        && server.routerCount == PlanNested(node, pending, 0, old(server.routerCount)).1
    {
      ghost var start := |server.log|;
      ghost var first := server.routerCount;
      var j := 0;
      while j < |pending|
        invariant 0 <= j <= |pending|
        invariant old(heap.classOf) <= heap.classOf && heap.meta == old(heap.meta)
        invariant old(server.log) <= server.log
        invariant Shapes(server.log[start..]) + PlanNested(node, pending, j, server.routerCount).0
          == PlanNested(node, pending, 0, first).0
        invariant PlanNested(node, pending, j, server.routerCount).1 == PlanNested(node, pending, 0, first).1
        invariant forall q | 0 <= q < |handed| :: handed[q].TypedBy(heap.classOf)
      {
        ghost var before := server.log;
        ghost var heapBefore := heap.classOf;
        ghost var count := server.routerCount;
        r := RenderGroup(node.children[pending[j].0], pending[j].1, handed[j]);
        if r.Err? { return; }
        NestedStep(node, pending, j, count, first, start, before, server.log);
        AllTypedGrow(handed, heapBefore, heap.classOf);
        j := j + 1;
      }
      r := Ok(());
    }

    /**
     * `render`: generate services, pipes, interceptors and filters (in that
     * order), then handle the children and render the nested groups. On
     * success the server has received exactly the mounts and bindings the
     * plan of this group lists, one binding per leaf with a method, and one
     * new router per nested group.
     */
    method Render(inherited: Inherited) returns (r: Result<(), CompileError>)
      requires Valid() && Fresh() && inherited.TypedBy(heap.classOf)
      modifies this, heap, server
      decreases node, 2
      ensures old(heap.classOf) <= heap.classOf && heap.meta == old(heap.meta)
      ensures old(server.log) <= server.log
      ensures var run := GenerateRun(heap.Classes(), node.props, inherited, old(heap.classOf), old(heap.fields), old(heap.params));
        && (run.0.Err? ==> r == run.0 && server.log == old(server.log))
        && (r.Ok? ==>
              && run.0.Ok?
              && services == run.1.services && pipes == run.1.pipes
              && interceptors == run.1.interceptors && filters == run.1.filters)
      ensures r.Ok? ==>
        && Shapes(server.log[|old(server.log)|..]) == PlanGroup(node, routerId, old(server.routerCount)).0
        && server.routerCount == PlanGroup(node, routerId, old(server.routerCount)).1
        && CountBinds(Shapes(server.log[|old(server.log)|..])) == MethodLeaves(node)
        && server.routerCount == old(server.routerCount) + GroupsBelow(node)
        && |MapShapes(node.children, routerId, old(server.routerCount))| <= |server.log| - |old(server.log)|
        && AllChainedHere(server.log[|old(server.log)|..][..|MapShapes(node.children, routerId, old(server.routerCount))|])
    {
      r := GenerateAll(inherited);
      if r.Err? { return; }
      r := RenderChildren();
    }

    /** The rest of `render`: `Children.map` over the children, then the nested groups in order. */
    method RenderChildren() returns (r: Result<(), CompileError>)
      requires Valid()
      modifies this, heap, server
      decreases node, 1
      ensures pipes == old(pipes) && interceptors == old(interceptors)
      ensures filters == old(filters) && services == old(services)
      ensures old(heap.classOf) <= heap.classOf && heap.meta == old(heap.meta)
      ensures old(server.log) <= server.log
      ensures r.Ok? ==>
        && Shapes(server.log[|old(server.log)|..]) == PlanGroup(node, routerId, old(server.routerCount)).0
        && server.routerCount == PlanGroup(node, routerId, old(server.routerCount)).1
        && CountBinds(Shapes(server.log[|old(server.log)|..])) == MethodLeaves(node)
        && server.routerCount == old(server.routerCount) + GroupsBelow(node)
        && |MapShapes(node.children, routerId, old(server.routerCount))| <= |server.log| - |old(server.log)|
        && AllChainedHere(server.log[|old(server.log)|..][..|MapShapes(node.children, routerId, old(server.routerCount))|])
    {
      ghost var start := server.log;
      ghost var first := server.routerCount;
      var pending, handed;
      r, pending, handed := CompileChildren();
      if r.Err? { return; }
      ghost var middle := server.log;
      r := RenderNested(pending, handed);
      if r.Err? { return; }
      assert |Shapes(middle[|start|..])| == |middle| - |start|;
      assert server.log[|start|..][..|middle| - |start|] == middle[|start|..];
      GroupComposes(node, routerId, first, pending, |start|, middle, server.log, server.routerCount);
    }
  }
}
