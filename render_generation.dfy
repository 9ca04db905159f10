/**
 * What a group's `generate*` calls do, stated on `KindRun` and `GenerateRun`
 * without following their steps: which error `render` raises, in which order
 * objects are allocated and registered, and what each new object is injected
 * with.
 */
module RenderGeneration {
  import opened Wrappers
  import opened Registries
  import opened Heaps
  import opened Routes
  import opened Injection
  import opened Generation
  import opened Routing

  /** The registry a group starts kind `k` with: its parent's, or empty. */
  function StartOf(props: GroupProps, inherited: Inherited, k: Kind): (r: Registry)
    ensures r.Valid()
  {
    Start(inherited.Of(k), props.IgnoresParent(k))
  }

  /** The classes `generate<Kind>` creates objects for, in order, when started from `start`. */
  function AddedBy(prog: Program, props: GroupProps, k: Kind, start: Registry): seq<ClassId> {
    Creates(prog, start.keys, props.Declared(k))
  }

  /** Whether `generatePipes` ends by registering the group's own validation pipe. */
  predicate AddsValidator(prog: Program, props: GroupProps, k: Kind, start: Registry) {
    k == Pipes && props.validate.Some? && FirstNonClass(prog, props.Declared(k), start).None?
  }

  /**
   * `generate<Kind>`'s verdict depends only on where the kind starts: it fails
   * with the first declared class that is neither registered there nor
   * constructible. Objects are allocated for the new classes in declaration
   * order (then the validation pipe), the registry lists its start's keys
   * then the new ones, and only the validation pipe receives options.
   */
  lemma KindRunOrder(prog: Program, props: GroupProps, k: Kind, parent: Option<seq<Entry>>, services: Registry,
                     classOf: seq<ClassId>, fields: Fields, params: map<InstId, Options>)
    ensures var start := Start(parent, props.IgnoresParent(k));
      var added := AddedBy(prog, props, k, start);
      var run := KindRun(prog, props, k, parent, services, classOf, fields, params);
      && run.0 == DeclareError(k, FirstNonClass(prog, props.Declared(k), start))
      && if AddsValidator(prog, props, k, start) then
           && run.1.classOf == classOf + added + [VALIDATION_PIPE]
           && run.1.reg.keys == start.keys + added + (if VALIDATION_PIPE in start.keys + added then [] else [VALIDATION_PIPE])
           && run.2 == params[|classOf| + |added| := props.validate.value]
         else
           && run.1.classOf == classOf + added
           && run.1.reg.keys == start.keys + added
           && run.2 == params
  {
    var start := Start(parent, props.IgnoresParent(k));
    var g := Gen(start, classOf, fields);
    var out := DeclaredRun(prog, k, g, services, props.Declared(k)).1;
    DeclaredFails(prog, k, g, services, props.Declared(k));
    DeclaredOrder(prog, k, g, services, props.Declared(k));
    var added := AddedBy(prog, props, k, start);
    assert out.classOf == classOf + added && out.reg.keys == start.keys + added;
    if AddsValidator(prog, props, k, start) {
      assert |out.classOf| == |classOf| + |added|;
      assert VALIDATION_PIPE in out.reg.inst <==> VALIDATION_PIPE in start.keys + added;
    }
  }

  /**
   * What `generate<Kind>` registers: everything its start held, under the
   * same object (except a validation pipe it replaces); each new class under
   * the object allocated for it; the validation pipe under the last object;
   * and, when it succeeds, every class the group declares.
   */
  lemma KindRunRegisters(prog: Program, props: GroupProps, k: Kind, parent: Option<seq<Entry>>, services: Registry,
                         classOf: seq<ClassId>, fields: Fields, params: map<InstId, Options>)
    ensures var start := Start(parent, props.IgnoresParent(k));
      var added := AddedBy(prog, props, k, start);
      var validates := AddsValidator(prog, props, k, start);
      var reg := KindRun(prog, props, k, parent, services, classOf, fields, params).1.reg;
      && (forall c | c in start.inst && !(validates && c == VALIDATION_PIPE) :: c in reg.inst && reg.inst[c] == start.inst[c])
      && (forall i | 0 <= i < |added| && !(validates && added[i] == VALIDATION_PIPE) ::
            added[i] in reg.inst && reg.inst[added[i]] == |classOf| + i)
      && (validates ==> VALIDATION_PIPE in reg.inst && reg.inst[VALIDATION_PIPE] == |classOf| + |added|)
      && (KindRun(prog, props, k, parent, services, classOf, fields, params).0.Ok? ==>
            forall c | c in props.Declared(k) :: c in reg.inst)
  {
    var start := Start(parent, props.IgnoresParent(k));
    var g := Gen(start, classOf, fields);
    var declared := props.Declared(k);
    DeclaredFails(prog, k, g, services, declared);
    DeclaredOrder(prog, k, g, services, declared);
    DeclaredExtends(prog, k, g, services, declared);
    DeclaredRegisters(prog, k, g, services, declared);
    DeclaredAll(prog, k, g, services, declared);
  }

  /**
   * What `generate<Kind>` injects: each object it creates for a declared class
   * gets exactly the fields injection gives it, from the group's services or,
   * for a service, from the services registered up to and including itself;
   * no other object's fields change.
   */
  lemma KindRunInjects(prog: Program, props: GroupProps, k: Kind, parent: Option<seq<Entry>>, services: Registry,
                       classOf: seq<ClassId>, fields: Fields, params: map<InstId, Options>)
    ensures var start := Start(parent, props.IgnoresParent(k));
      var n := |classOf| + |AddedBy(prog, props, k, start)|;
      var out := KindRun(prog, props, k, parent, services, classOf, fields, params).1;
      && n <= |out.classOf| && |start.keys| + (n - |classOf|) <= |out.reg.keys|
      && (forall key: (InstId, string) | key.0 < |classOf| || n <= key.0 :: Kept(fields, out.fields, key))
      && forall o, p | |classOf| <= o < n :: CreatedInjected(prog, k, Gen(start, classOf, fields), out, services, o, p)
  {
    var start := Start(parent, props.IgnoresParent(k));
    var g := Gen(start, classOf, fields);
    var declared := props.Declared(k);
    DeclaredKeeps(prog, k, g, services, declared);
    DeclaredInjects(prog, k, g, services, declared);
    var run := KindRun(prog, props, k, parent, services, classOf, fields, params);
    var out := DeclaredRun(prog, k, g, services, declared).1;
    if run.1 != out {
      var n := |classOf| + |AddedBy(prog, props, k, start)|;
      forall o, p | |classOf| <= o < n ensures CreatedInjected(prog, k, g, run.1, services, o, p) {
        assert CreatedInjected(prog, k, g, out, services, o, p);
        assert run.1.classOf[o] == out.classOf[o];
      }
    }
  }

  /** `generate<Kind>`'s own verdict, from where the group starts that kind. */
  function KindError(prog: Program, props: GroupProps, inherited: Inherited, k: Kind): Result<(), CompileError> {
    DeclareError(k, FirstNonClass(prog, props.Declared(k), StartOf(props, inherited, k)))
  }

  /** The verdict of the first of `ks` whose `generate<Kind>` fails, or `Ok`. */
  function FirstError(prog: Program, props: GroupProps, inherited: Inherited, ks: seq<Kind>): (r: Result<(), CompileError>)
    ensures r.Ok? <==> forall k | k in ks :: KindError(prog, props, inherited, k).Ok?
    ensures r.Err? ==> exists k | k in ks :: r == KindError(prog, props, inherited, k)
  {
    if ks == [] then Ok(())
    else if KindError(prog, props, inherited, ks[0]).Err? then KindError(prog, props, inherited, ks[0])
    else FirstError(prog, props, inherited, ks[1..])
  }

  /** The order `render` generates the kinds in. */
  const ORDER: seq<Kind> := [Services, Pipes, Interceptors, Filters]

  /**
   * `render` fails exactly when some kind's declarations do, and then with the
   * error of the first such kind in the order services, pipes, interceptors,
   * filters; what the earlier kinds created does not change that verdict.
   */
  lemma GenerateFails(prog: Program, props: GroupProps, inherited: Inherited,
                      classOf: seq<ClassId>, fields: Fields, params: map<InstId, Options>)
    ensures GenerateRun(prog, props, inherited, classOf, fields, params).0 == FirstError(prog, props, inherited, ORDER)
  {
    var s := KindRun(prog, props, Services, inherited.services, EMPTY, classOf, fields, params);
    KindRunOrder(prog, props, Services, inherited.services, EMPTY, classOf, fields, params);
    assert ORDER[1..] == [Pipes, Interceptors, Filters];
    if s.0.Ok? {
      FromPipesFails(prog, props, inherited, s.1.reg, s.1.classOf, s.1.fields, s.2);
    }
  }

  lemma FromPipesFails(prog: Program, props: GroupProps, inherited: Inherited, services: Registry,
                       classOf: seq<ClassId>, fields: Fields, params: map<InstId, Options>)
    ensures FromPipes(prog, props, inherited, services, classOf, fields, params).0
      == FirstError(prog, props, inherited, [Pipes, Interceptors, Filters])
  {
    var p := KindRun(prog, props, Pipes, inherited.pipes, services, classOf, fields, params);
    KindRunOrder(prog, props, Pipes, inherited.pipes, services, classOf, fields, params);
    assert [Pipes, Interceptors, Filters][1..] == [Interceptors, Filters];
    if p.0.Ok? {
      FromInterceptorsFails(prog, props, inherited, services, p.1.reg, p.1.classOf, p.1.fields, p.2);
    }
  }

  lemma FromInterceptorsFails(prog: Program, props: GroupProps, inherited: Inherited, services: Registry, pipes: Registry,
                              classOf: seq<ClassId>, fields: Fields, params: map<InstId, Options>)
    ensures FromInterceptors(prog, props, inherited, services, pipes, classOf, fields, params).0
      == FirstError(prog, props, inherited, [Interceptors, Filters])
  {
    var i := KindRun(prog, props, Interceptors, inherited.interceptors, services, classOf, fields, params);
    KindRunOrder(prog, props, Interceptors, inherited.interceptors, services, classOf, fields, params);
    assert [Interceptors, Filters][1..] == [Filters];
    if i.0.Ok? {
      KindRunOrder(prog, props, Filters, inherited.filters, services, i.1.classOf, i.1.fields, i.2);
      assert [Filters][1..] == [];
      assert FirstError(prog, props, inherited, [Filters]) == KindError(prog, props, inherited, Filters);
    }
  }

  /** The classes `generate<Kind>` creates objects for in a group, in order. */
  function Added(prog: Program, props: GroupProps, inherited: Inherited, k: Kind): seq<ClassId> {
    AddedBy(prog, props, k, StartOf(props, inherited, k))
  }

  /** The group's own validation pipe, when `generatePipes` adds one. */
  function Validator(prog: Program, props: GroupProps, inherited: Inherited): seq<ClassId> {
    if AddsValidator(prog, props, Pipes, StartOf(props, inherited, Pipes)) then [VALIDATION_PIPE] else []
  }

  /**
   * When `render`'s `generate*` calls succeed, objects are allocated for the
   * new services first, then the new pipes and the validation pipe, then the
   * new interceptors and filters; the validation pipe alone receives options.
   */
  lemma GenerateAllocates(prog: Program, props: GroupProps, inherited: Inherited,
                          classOf: seq<ClassId>, fields: Fields, params: map<InstId, Options>)
    ensures var run := GenerateRun(prog, props, inherited, classOf, fields, params);
      run.0.Ok? ==>
        && run.1.classOf == classOf + Added(prog, props, inherited, Services) + Added(prog, props, inherited, Pipes)
             + Validator(prog, props, inherited) + Added(prog, props, inherited, Interceptors) + Added(prog, props, inherited, Filters)
        && run.1.params == if props.validate.Some? then
             params[|classOf| + |Added(prog, props, inherited, Services)| + |Added(prog, props, inherited, Pipes)| := props.validate.value]
           else params
  {
    var s := KindRun(prog, props, Services, inherited.services, EMPTY, classOf, fields, params);
    KindRunOrder(prog, props, Services, inherited.services, EMPTY, classOf, fields, params);
    if s.0.Ok? {
      FromPipesAllocates(prog, props, inherited, s.1.reg, s.1.classOf, s.1.fields, s.2);
    }
  }

  lemma FromPipesAllocates(prog: Program, props: GroupProps, inherited: Inherited, services: Registry,
                           classOf: seq<ClassId>, fields: Fields, params: map<InstId, Options>)
    ensures var run := FromPipes(prog, props, inherited, services, classOf, fields, params);
      run.0.Ok? ==>
        && run.1.classOf == classOf + Added(prog, props, inherited, Pipes) + Validator(prog, props, inherited)
             + Added(prog, props, inherited, Interceptors) + Added(prog, props, inherited, Filters)
        && run.1.params == if props.validate.Some? then
             params[|classOf| + |Added(prog, props, inherited, Pipes)| := props.validate.value]
           else params
  {
    var p := KindRun(prog, props, Pipes, inherited.pipes, services, classOf, fields, params);
    PipesAllocate(prog, props, inherited, services, classOf, fields, params);
    if p.0.Ok? {
      FromInterceptorsAllocates(prog, props, inherited, services, p.1.reg, p.1.classOf, p.1.fields, p.2);
    }
  }

  /** What `generatePipes` allocates, and the options it records, when it succeeds. */
  lemma PipesAllocate(prog: Program, props: GroupProps, inherited: Inherited, services: Registry,
                      classOf: seq<ClassId>, fields: Fields, params: map<InstId, Options>)
    ensures var p := KindRun(prog, props, Pipes, inherited.pipes, services, classOf, fields, params);
      p.0.Ok? ==>
        && p.1.classOf == classOf + Added(prog, props, inherited, Pipes) + Validator(prog, props, inherited)
        && p.2 == if props.validate.Some? then
             params[|classOf| + |Added(prog, props, inherited, Pipes)| := props.validate.value]
           else params
  {
    if props.validate.Some? {
      PipesAllocateValidated(prog, props, inherited, services, classOf, fields, params);
    } else {
      PipesAllocatePlain(prog, props, inherited, services, classOf, fields, params);
    }
  }

  lemma PipesAllocateValidated(prog: Program, props: GroupProps, inherited: Inherited, services: Registry,
                               classOf: seq<ClassId>, fields: Fields, params: map<InstId, Options>)
    requires props.validate.Some?
    ensures var p := KindRun(prog, props, Pipes, inherited.pipes, services, classOf, fields, params);
      p.0.Ok? ==>
        && p.1.classOf == classOf + Added(prog, props, inherited, Pipes) + [VALIDATION_PIPE]
        && p.2 == params[|classOf| + |Added(prog, props, inherited, Pipes)| := props.validate.value]
        && Validator(prog, props, inherited) == [VALIDATION_PIPE]
  {
    var start := Start(inherited.pipes, props.IgnoresParent(Pipes));
    assert StartOf(props, inherited, Pipes) == start;
    var n := |classOf| + |AddedBy(prog, props, Pipes, start)|;
    assert n == |classOf| + |Added(prog, props, inherited, Pipes)|;
    KindRunOrder(prog, props, Pipes, inherited.pipes, services, classOf, fields, params);
  }

  lemma PipesAllocatePlain(prog: Program, props: GroupProps, inherited: Inherited, services: Registry,
                           classOf: seq<ClassId>, fields: Fields, params: map<InstId, Options>)
    requires props.validate.None?
    ensures var p := KindRun(prog, props, Pipes, inherited.pipes, services, classOf, fields, params);
      && p.1.classOf == classOf + Added(prog, props, inherited, Pipes)
      && p.2 == params
      && Validator(prog, props, inherited) == []
  {
    KindRunOrder(prog, props, Pipes, inherited.pipes, services, classOf, fields, params);
    assert StartOf(props, inherited, Pipes) == Start(inherited.pipes, props.IgnoresParent(Pipes));
  }

  lemma FromInterceptorsAllocates(prog: Program, props: GroupProps, inherited: Inherited, services: Registry, pipes: Registry,
                                  classOf: seq<ClassId>, fields: Fields, params: map<InstId, Options>)
    ensures var run := FromInterceptors(prog, props, inherited, services, pipes, classOf, fields, params);
      run.0.Ok? ==>
        && run.1.classOf == classOf + Added(prog, props, inherited, Interceptors) + Added(prog, props, inherited, Filters)
        && run.1.params == params
  {
    var i := KindRun(prog, props, Interceptors, inherited.interceptors, services, classOf, fields, params);
    KindRunOrder(prog, props, Interceptors, inherited.interceptors, services, classOf, fields, params);
    if i.0.Ok? {
      KindRunOrder(prog, props, Filters, inherited.filters, services, i.1.classOf, i.1.fields, i.2);
    }
  }

  /**
   * Field `p` of the service object `o` is what injection gives it from the
   * services registered, in `run`, up to and including `o`'s own class.
   */
  ghost predicate InjectedAsService(prog: Program, start: Registry, classOf: seq<ClassId>, fields: Fields,
                                    run: Generated, o: InstId, p: string)
    requires |classOf| <= o < |run.classOf| && |start.keys| + (o - |classOf|) + 1 <= |run.services.keys|
  {
    InjectedField(fields, run.fields, o, prog.Decls(run.classOf[o]),
                  Prefix(run.services, |start.keys| + (o - |classOf|) + 1).inst, p)
  }

  /**
   * Services are generated before anything else: every object created for a
   * declared pipe, interceptor or filter is injected from the group's
   * complete service registry; each service object from the services
   * registered up to and including its own; no earlier object changes.
   */
  lemma ServicesFirst(prog: Program, props: GroupProps, inherited: Inherited,
                      classOf: seq<ClassId>, fields: Fields, params: map<InstId, Options>)
    ensures var run := GenerateRun(prog, props, inherited, classOf, fields, params).1;
      var n := |classOf| + |Added(prog, props, inherited, Services)|;
      var v := n + |Added(prog, props, inherited, Pipes)|;
      GenerateRun(prog, props, inherited, classOf, fields, params).0.Ok? ==>
        && n <= |run.classOf| && |StartOf(props, inherited, Services).keys| + (n - |classOf|) <= |run.services.keys|
        && (forall key: (InstId, string) | key.0 < |classOf| :: Kept(fields, run.fields, key))
        && (forall o, p | |classOf| <= o < n ::
              InjectedAsService(prog, StartOf(props, inherited, Services), classOf, fields, run, o, p))
        && forall o, p | n <= o < |run.classOf| && !(props.validate.Some? && o == v) ::
             InjectedField(fields, run.fields, o, prog.Decls(run.classOf[o]), run.services.inst, p)
  {
    var s := KindRun(prog, props, Services, inherited.services, EMPTY, classOf, fields, params);
    var run := GenerateRun(prog, props, inherited, classOf, fields, params);
    if run.0.Ok? {
      KindRunOrder(prog, props, Services, inherited.services, EMPTY, classOf, fields, params);
      KindRunInjects(prog, props, Services, inherited.services, EMPTY, classOf, fields, params);
      FromPipesInjects(prog, props, inherited, s.1.reg, s.1.classOf, s.1.fields, s.2);
      var g := Gen(StartOf(props, inherited, Services), classOf, fields);
      var n := |s.1.classOf|;
      assert n == |classOf| + |Added(prog, props, inherited, Services)|;
      assert run.1.services == s.1.reg && s.1.classOf <= run.1.classOf;
      forall key: (InstId, string) | key.0 < |classOf| ensures Kept(fields, run.1.fields, key) {
        KeptThen(fields, s.1.fields, run.1.fields, key);
      }
      ServicesKept(prog, g, s.1, run.1);
      forall o, p | n <= o < |run.1.classOf| && !(props.validate.Some? && o == n + |Added(prog, props, inherited, Pipes)|)
        ensures InjectedField(fields, run.1.fields, o, prog.Decls(run.1.classOf[o]), run.1.services.inst, p)
      {
        InjectedAfter(fields, s.1.fields, run.1.fields, o, prog.Decls(run.1.classOf[o]), run.1.services.inst, p);
      }
    }
  }

  /** Services injected when created stay so while the rest of the group is generated. */
  lemma ServicesKept(prog: Program, g: Gen, s: Gen, rest: Generated)
    requires s.classOf <= rest.classOf && rest.services == s.reg && |g.classOf| <= |s.classOf|
    requires |g.reg.keys| + (|s.classOf| - |g.classOf|) <= |s.reg.keys|
    requires forall key: (InstId, string) | key.0 < |s.classOf| :: Kept(s.fields, rest.fields, key)
    requires forall o, p | |g.classOf| <= o < |s.classOf| :: CreatedInjected(prog, Services, g, s, EMPTY, o, p)
    ensures forall o, p | |g.classOf| <= o < |s.classOf| :: InjectedAsService(prog, g.reg, g.classOf, g.fields, rest, o, p)
  {
    forall o, p | |g.classOf| <= o < |s.classOf| ensures InjectedAsService(prog, g.reg, g.classOf, g.fields, rest, o, p) {
      assert CreatedInjected(prog, Services, g, s, EMPTY, o, p);
      assert rest.classOf[o] == s.classOf[o];
      InjectedThen(g.fields, s.fields, rest.fields, o, prog.Decls(s.classOf[o]),
                   Prefix(s.reg, |g.reg.keys| + (o - |g.classOf|) + 1).inst, p);
    }
  }

  lemma FromPipesInjects(prog: Program, props: GroupProps, inherited: Inherited, services: Registry,
                         classOf: seq<ClassId>, fields: Fields, params: map<InstId, Options>)
    ensures var run := FromPipes(prog, props, inherited, services, classOf, fields, params);
      var v := |classOf| + |Added(prog, props, inherited, Pipes)|;
      run.0.Ok? ==>
        && classOf <= run.1.classOf
        && (forall key: (InstId, string) | key.0 < |classOf| :: Kept(fields, run.1.fields, key))
        && forall o, p | |classOf| <= o < |run.1.classOf| && !(props.validate.Some? && o == v) ::
             InjectedField(fields, run.1.fields, o, prog.Decls(run.1.classOf[o]), services.inst, p)
  {
    var p := KindRun(prog, props, Pipes, inherited.pipes, services, classOf, fields, params);
    var run := FromPipes(prog, props, inherited, services, classOf, fields, params);
    if run.0.Ok? {
      KindRunOrder(prog, props, Pipes, inherited.pipes, services, classOf, fields, params);
      KindRunInjects(prog, props, Pipes, inherited.pipes, services, classOf, fields, params);
      FromInterceptorsInjects(prog, props, inherited, services, p.1.reg, p.1.classOf, p.1.fields, p.2);
      var g := Gen(StartOf(props, inherited, Pipes), classOf, fields);
      var v := |classOf| + |Added(prog, props, inherited, Pipes)|;
      forall key: (InstId, string) | key.0 < |classOf| ensures Kept(fields, run.1.fields, key) {
        KeptThen(fields, p.1.fields, run.1.fields, key);
      }
      forall o, p' | |classOf| <= o < |run.1.classOf| && !(props.validate.Some? && o == v)
        ensures InjectedField(fields, run.1.fields, o, prog.Decls(run.1.classOf[o]), services.inst, p')
      {
        if o < v {
          assert CreatedInjected(prog, Pipes, g, p.1, services, o, p');
          assert run.1.classOf[o] == p.1.classOf[o];
          InjectedThen(fields, p.1.fields, run.1.fields, o, prog.Decls(p.1.classOf[o]), services.inst, p');
        } else {
          InjectedAfter(fields, p.1.fields, run.1.fields, o, prog.Decls(run.1.classOf[o]), services.inst, p');
        }
      }
    }
  }

  lemma FromInterceptorsInjects(prog: Program, props: GroupProps, inherited: Inherited, services: Registry, pipes: Registry,
                                classOf: seq<ClassId>, fields: Fields, params: map<InstId, Options>)
    ensures var run := FromInterceptors(prog, props, inherited, services, pipes, classOf, fields, params);
      run.0.Ok? ==>
        && classOf <= run.1.classOf
        && (forall key: (InstId, string) | key.0 < |classOf| :: Kept(fields, run.1.fields, key))
        && forall o, p | |classOf| <= o < |run.1.classOf| ::
             InjectedField(fields, run.1.fields, o, prog.Decls(run.1.classOf[o]), services.inst, p)
  {
    var i := KindRun(prog, props, Interceptors, inherited.interceptors, services, classOf, fields, params);
    var run := FromInterceptors(prog, props, inherited, services, pipes, classOf, fields, params);
    if run.0.Ok? {
      KindRunOrder(prog, props, Interceptors, inherited.interceptors, services, classOf, fields, params);
      KindRunInjects(prog, props, Interceptors, inherited.interceptors, services, classOf, fields, params);
      KindRunOrder(prog, props, Filters, inherited.filters, services, i.1.classOf, i.1.fields, i.2);
      KindRunInjects(prog, props, Filters, inherited.filters, services, i.1.classOf, i.1.fields, i.2);
      var gi := Gen(StartOf(props, inherited, Interceptors), classOf, fields);
      var gf := Gen(StartOf(props, inherited, Filters), i.1.classOf, i.1.fields);
      forall key: (InstId, string) | key.0 < |classOf| ensures Kept(fields, run.1.fields, key) {
        KeptThen(fields, i.1.fields, run.1.fields, key);
      }
      forall o, p | |classOf| <= o < |run.1.classOf|
        ensures InjectedField(fields, run.1.fields, o, prog.Decls(run.1.classOf[o]), services.inst, p)
      {
        if o < |i.1.classOf| {
          assert CreatedInjected(prog, Interceptors, gi, i.1, services, o, p);
          assert run.1.classOf[o] == i.1.classOf[o];
          InjectedThen(fields, i.1.fields, run.1.fields, o, prog.Decls(i.1.classOf[o]), services.inst, p);
        } else {
          var f := KindRun(prog, props, Filters, inherited.filters, services, i.1.classOf, i.1.fields, i.2);
          assert CreatedInjected(prog, Filters, gf, f.1, services, o, p);
          InjectedAfter(fields, i.1.fields, run.1.fields, o, prog.Decls(run.1.classOf[o]), services.inst, p);
        }
      }
    }
  }

  /**
   * `reg` is kind `k`'s registry as the group's declarations make it: its
   * start's keys then the new classes (then the validation pipe when it is
   * new), the start's objects kept (but a replaced validation pipe), and every
   * declared class registered.
   */
  ghost predicate RegistersAsDeclared(prog: Program, props: GroupProps, inherited: Inherited, k: Kind, reg: Registry) {
    var start := StartOf(props, inherited, k);
    var added := Added(prog, props, inherited, k);
    var validates := AddsValidator(prog, props, k, start);
    && reg.keys == (if validates && VALIDATION_PIPE !in start.keys + added then start.keys + added + [VALIDATION_PIPE] else start.keys + added)
    && (forall c | c in start.inst && !(validates && c == VALIDATION_PIPE) :: c in reg.inst && reg.inst[c] == start.inst[c])
    && (forall c | c in props.Declared(k) :: c in reg.inst)
    && (validates ==> VALIDATION_PIPE in reg.inst)
  }

  lemma KindRegistersAsDeclared(prog: Program, props: GroupProps, inherited: Inherited, k: Kind, services: Registry,
                                classOf: seq<ClassId>, fields: Fields, params: map<InstId, Options>)
    ensures var run := KindRun(prog, props, k, inherited.Of(k), services, classOf, fields, params);
      run.0.Ok? ==> RegistersAsDeclared(prog, props, inherited, k, run.1.reg)
  {
    KindRunOrder(prog, props, k, inherited.Of(k), services, classOf, fields, params);
    KindRunRegisters(prog, props, k, inherited.Of(k), services, classOf, fields, params);
    var start := StartOf(props, inherited, k);
    var added := Added(prog, props, inherited, k);
    if VALIDATION_PIPE in start.keys + added {
      assert start.keys + added + [] == start.keys + added;
    }
  }

  /**
   * When `render`'s `generate*` calls succeed, each of the group's four
   * registries holds what its parent handed down (unless ignored) and what
   * the group declares, in that order.
   */
  lemma GenerateRegisters(prog: Program, props: GroupProps, inherited: Inherited,
                          classOf: seq<ClassId>, fields: Fields, params: map<InstId, Options>)
    ensures var run := GenerateRun(prog, props, inherited, classOf, fields, params);
      run.0.Ok? ==> forall k :: RegistersAsDeclared(prog, props, inherited, k, run.1.Of(k))
  {
    var run := GenerateRun(prog, props, inherited, classOf, fields, params);
    var s := KindRun(prog, props, Services, inherited.services, EMPTY, classOf, fields, params);
    if s.0.Ok? {
      assert inherited.Of(Services) == inherited.services;
      KindRegistersAsDeclared(prog, props, inherited, Services, EMPTY, classOf, fields, params);
      FromPipesRegisters(prog, props, inherited, s.1.reg, s.1.classOf, s.1.fields, s.2);
      if run.0.Ok? {
        forall k ensures RegistersAsDeclared(prog, props, inherited, k, run.1.Of(k)) {
          match k
          case Services =>
          case Pipes =>
          case Interceptors =>
          case Filters =>
        }
      }
    }
  }

  lemma FromPipesRegisters(prog: Program, props: GroupProps, inherited: Inherited, services: Registry,
                           classOf: seq<ClassId>, fields: Fields, params: map<InstId, Options>)
    ensures var run := FromPipes(prog, props, inherited, services, classOf, fields, params);
      run.0.Ok? ==>
        && run.1.services == services
        && RegistersAsDeclared(prog, props, inherited, Pipes, run.1.pipes)
        && RegistersAsDeclared(prog, props, inherited, Interceptors, run.1.interceptors)
        && RegistersAsDeclared(prog, props, inherited, Filters, run.1.filters)
  {
    var p := KindRun(prog, props, Pipes, inherited.pipes, services, classOf, fields, params);
    if p.0.Ok? {
      assert inherited.Of(Pipes) == inherited.pipes;
      KindRegistersAsDeclared(prog, props, inherited, Pipes, services, classOf, fields, params);
      FromInterceptorsRegisters(prog, props, inherited, services, p.1.reg, p.1.classOf, p.1.fields, p.2);
    }
  }

  lemma FromInterceptorsRegisters(prog: Program, props: GroupProps, inherited: Inherited, services: Registry, pipes: Registry,
                                  classOf: seq<ClassId>, fields: Fields, params: map<InstId, Options>)
    ensures var run := FromInterceptors(prog, props, inherited, services, pipes, classOf, fields, params);
      run.0.Ok? ==>
        && run.1.services == services && run.1.pipes == pipes
        && RegistersAsDeclared(prog, props, inherited, Interceptors, run.1.interceptors)
        && RegistersAsDeclared(prog, props, inherited, Filters, run.1.filters)
  {
    var i := KindRun(prog, props, Interceptors, inherited.interceptors, services, classOf, fields, params);
    if i.0.Ok? {
      assert inherited.Of(Interceptors) == inherited.interceptors;
      assert inherited.Of(Filters) == inherited.filters;
      KindRegistersAsDeclared(prog, props, inherited, Interceptors, services, classOf, fields, params);
      KindRegistersAsDeclared(prog, props, inherited, Filters, services, i.1.classOf, i.1.fields, i.2);
    }
  }
}
