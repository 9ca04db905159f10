/**
 * `getPipe`, `getInterceptor`, `getFilter`, `getService` and the loops of the
 * `generate*` methods over a group's declared classes, on values: which
 * objects are created, in what order, under which keys, and what each
 * receives from dependency injection.
 */
module Generation {
  import opened Wrappers
  import opened Registries
  import opened Heaps
  import opened Routes
  import opened Injection

  type Fields = map<(InstId, string), InstId>

  /** A kind's registry, with the heap's allocation and injected fields, as the declaration loop changes them. */
  datatype Gen = Gen(reg: Registry, classOf: seq<ClassId>, fields: Fields)

  /**
   * The service registry a new object is injected from, once it is registered
   * in `reg`: a service is registered first, so it is injected from the
   * registry that holds it; the other kinds are injected from the group's services.
   */
  function InjectFrom(k: Kind, reg: Registry, services: Registry): Registry {
    if k == Services then reg else services
  }

  /** The state once a new object of class `c` is allocated, registered under `c` and injected. */
  function Created(prog: Program, k: Kind, g: Gen, services: Registry, c: ClassId): (r: Gen)
    requires g.reg.Valid() && c !in g.reg.inst
    ensures r.reg.Valid() && r.reg.keys == g.reg.keys + [c] && r.reg.inst == g.reg.inst[c := |g.classOf|]
    ensures r.classOf == g.classOf + [c]
  {
    var o := |g.classOf|;
    var reg := g.reg.Put(c, o);
    Gen(reg, g.classOf + [c], Injected(g.fields, prog.Decls(c), InjectFrom(k, reg, services).inst, o))
  }

  /**
   * `get<Kind>(c)` on values: the registry is left alone when `c` is
   * registered; otherwise a new object of class `c` is created. None: `new c()` throws.
   */
  function Acquired(prog: Program, k: Kind, g: Gen, services: Registry, c: ClassId): (r: Option<Gen>)
    requires g.reg.Valid()
    ensures r.Some? ==> r.value.reg.Valid()
  {
    if c in g.reg.inst then Some(g)
    else if !prog.Constructible(c) then None
    else Some(Created(prog, k, g, services, c))
  }

  /**
   * `declared.forEach(get<Kind>)`: the class whose construction throws first
   * (None when none does), and the state the loop leaves.
   */
  function DeclaredRun(prog: Program, k: Kind, g: Gen, services: Registry, declared: seq<ClassId>): (r: (Option<ClassId>, Gen))
    requires g.reg.Valid()
    ensures r.1.reg.Valid()
    decreases |declared|
  {
    if declared == [] then (None, g)
    else
      match Acquired(prog, k, g, services, declared[0])
      case None => (Some(declared[0]), g)
      case Some(next) => DeclaredRun(prog, k, next, services, declared[1..])
  }

  /**
   * The classes the loop creates objects for, in order: each declared class
   * not known yet, up to the first that cannot be constructed.
   */
  function Creates(prog: Program, known: seq<ClassId>, declared: seq<ClassId>): seq<ClassId>
    decreases |declared|
  {
    if declared == [] then []
    else if declared[0] in known then Creates(prog, known, declared[1..])
    else if !prog.Constructible(declared[0]) then []
    else [declared[0]] + Creates(prog, known + [declared[0]], declared[1..])
  }

  /** The first declared class that is neither registered in `start` nor constructible. */
  function FirstNonClass(prog: Program, declared: seq<ClassId>, start: Registry): (r: Option<ClassId>)
    ensures r.Some? ==> r.value in declared && r.value !in start.inst && !prog.Constructible(r.value)
    ensures r.None? <==> forall c | c in declared :: c in start.inst || prog.Constructible(c)
  {
    if declared == [] then None
    else if declared[0] !in start.inst && !prog.Constructible(declared[0]) then Some(declared[0])
    else FirstNonClass(prog, declared[1..], start)
  }

  /** Registering a constructible class does not change which declared class fails first. */
  lemma {:induction false} FirstNonClassPut(prog: Program, declared: seq<ClassId>, r: Registry, c: ClassId, o: InstId)
    requires r.Valid() && prog.Constructible(c)
    ensures FirstNonClass(prog, declared, r.Put(c, o)) == FirstNonClass(prog, declared, r)
    decreases |declared|
  {
    if declared != [] {
      FirstNonClassPut(prog, declared[1..], r, c, o);
    }
  }

  /** Field `key` is present in `after` exactly when in `before`, with the same value. */
  ghost predicate Kept(before: Fields, after: Fields, key: (InstId, string)) {
    (key in after <==> key in before) && (key in before ==> after[key] == before[key])
  }

  /**
   * Field `p` of object `o` in `after` is the service injecting `decls` from
   * `services` sets it to, or, when no entry names a service, what it was in `before`.
   */
  ghost predicate InjectedField(before: Fields, after: Fields, o: InstId, decls: seq<InjectDecl>,
                                services: map<ClassId, InstId>, p: string) {
    var s := LastService(decls, services, p);
    if s.Some? then (o, p) in after && after[(o, p)] == s.value else Kept(before, after, (o, p))
  }

  lemma KeptThen(before: Fields, mid: Fields, after: Fields, key: (InstId, string))
    requires Kept(before, mid, key) && Kept(mid, after, key)
    ensures Kept(before, after, key)
  {
  }

  /** A field injection set stays what it is while later steps keep it. */
  lemma InjectedThen(before: Fields, mid: Fields, after: Fields, o: InstId, decls: seq<InjectDecl>,
                     services: map<ClassId, InstId>, p: string)
    requires InjectedField(before, mid, o, decls, services, p) && Kept(mid, after, (o, p))
    ensures InjectedField(before, after, o, decls, services, p)
  {
  }

  /** Injection on a field earlier steps kept is injection from before those steps. */
  lemma InjectedAfter(before: Fields, mid: Fields, after: Fields, o: InstId, decls: seq<InjectDecl>,
                      services: map<ClassId, InstId>, p: string)
    requires Kept(before, mid, (o, p)) && InjectedField(mid, after, o, decls, services, p)
    ensures InjectedField(before, after, o, decls, services, p)
  {
  }

  /**
   * Field `p` of object `o`, created by the loop that went from `g` to `out`,
   * is what injection gave it: from the group's services, or, for a service,
   * from the services registered up to and including itself.
   */
  ghost predicate CreatedInjected(prog: Program, k: Kind, g: Gen, out: Gen, services: Registry, o: InstId, p: string)
    requires |g.classOf| <= o < |out.classOf|
    requires |g.reg.keys| + (o - |g.classOf|) + 1 <= |out.reg.keys|
  {
    var source := if k == Services then Prefix(out.reg, |g.reg.keys| + (o - |g.classOf|) + 1) else services;
    InjectedField(g.fields, out.fields, o, prog.Decls(out.classOf[o]), source.inst, p)
  }

  /** One turn of the loop, and of `Creates`, by the three cases of `get<Kind>`. */
  lemma DeclaredStep(prog: Program, k: Kind, g: Gen, services: Registry, declared: seq<ClassId>)
    requires g.reg.Valid() && declared != []
    ensures var c := declared[0];
      var run := DeclaredRun(prog, k, g, services, declared);
      var added := Creates(prog, g.reg.keys, declared);
      if c in g.reg.inst then
        run == DeclaredRun(prog, k, g, services, declared[1..]) && added == Creates(prog, g.reg.keys, declared[1..])
      else if !prog.Constructible(c) then
        run == (Some(c), g) && added == []
      else
        && run == DeclaredRun(prog, k, Created(prog, k, g, services, c), services, declared[1..])
        && added == [c] + Creates(prog, g.reg.keys + [c], declared[1..])
  {
  }

  /** One step of the loop: acquire the first declared class, then go on with the rest. */
  lemma DeclaredNext(prog: Program, k: Kind, g: Gen, services: Registry, declared: seq<ClassId>, rest: seq<ClassId>)
    requires g.reg.Valid() && declared != [] && rest == declared[1..]
    ensures DeclaredRun(prog, k, g, services, declared) ==
      match Acquired(prog, k, g, services, declared[0])
      case None => (Some(declared[0]), g)
      case Some(next) => DeclaredRun(prog, k, next, services, rest)
  {
  }

  /** The loop stops at the first class that is neither registered nor constructible. */
  lemma {:induction false} DeclaredFails(prog: Program, k: Kind, g: Gen, services: Registry, declared: seq<ClassId>)
    requires g.reg.Valid()
    ensures DeclaredRun(prog, k, g, services, declared).0 == FirstNonClass(prog, declared, g.reg)
    decreases |declared|
  {
    if declared != [] {
      DeclaredStep(prog, k, g, services, declared);
      var c := declared[0];
      if c in g.reg.inst {
        DeclaredFails(prog, k, g, services, declared[1..]);
      } else if prog.Constructible(c) {
        DeclaredFails(prog, k, Created(prog, k, g, services, c), services, declared[1..]);
        FirstNonClassPut(prog, declared[1..], g.reg, c, |g.classOf|);
      }
    }
  }

  /**
   * The loop allocates one object per class of `Creates`, in that order, and
   * appends those classes to the registry's keys.
   */
  lemma {:induction false} DeclaredOrder(prog: Program, k: Kind, g: Gen, services: Registry, declared: seq<ClassId>)
    requires g.reg.Valid()
    ensures var out := DeclaredRun(prog, k, g, services, declared).1;
      && out.classOf == g.classOf + Creates(prog, g.reg.keys, declared)
      && out.reg.keys == g.reg.keys + Creates(prog, g.reg.keys, declared)
    decreases |declared|
  {
    if declared != [] {
      DeclaredStep(prog, k, g, services, declared);
      var c := declared[0];
      if c in g.reg.inst {
        DeclaredOrder(prog, k, g, services, declared[1..]);
      } else if prog.Constructible(c) {
        var next := Created(prog, k, g, services, c);
        DeclaredOrder(prog, k, next, services, declared[1..]);
        var rest := Creates(prog, next.reg.keys, declared[1..]);
        AppendAssociates(g.classOf, [c], rest);
        AppendAssociates(g.reg.keys, [c], rest);
      }
    }
  }

  /** The loop keeps every key and instance it started with. */
  lemma {:induction false} DeclaredExtends(prog: Program, k: Kind, g: Gen, services: Registry, declared: seq<ClassId>)
    requires g.reg.Valid()
    ensures Extends(g.reg, DeclaredRun(prog, k, g, services, declared).1.reg)
    decreases |declared|
  {
    if declared != [] {
      DeclaredStep(prog, k, g, services, declared);
      var c := declared[0];
      if c in g.reg.inst {
        DeclaredExtends(prog, k, g, services, declared[1..]);
      } else if prog.Constructible(c) {
        var next := Created(prog, k, g, services, c);
        DeclaredExtends(prog, k, next, services, declared[1..]);
        ExtendsTransitive(g.reg, next.reg, DeclaredRun(prog, k, next, services, declared[1..]).1.reg);
      }
    }
  }

  /** The `i`-th class the loop creates is registered under the `i`-th object it allocates. */
  lemma {:induction false} DeclaredRegisters(prog: Program, k: Kind, g: Gen, services: Registry, declared: seq<ClassId>)
    requires g.reg.Valid()
    ensures var out := DeclaredRun(prog, k, g, services, declared).1;
      var added := Creates(prog, g.reg.keys, declared);
      forall i | 0 <= i < |added| :: added[i] in out.reg.inst && out.reg.inst[added[i]] == |g.classOf| + i
    decreases |declared|
  {
    if declared == [] {
      return;
    }
    DeclaredStep(prog, k, g, services, declared);
    var c := declared[0];
    if c in g.reg.inst {
      DeclaredRegisters(prog, k, g, services, declared[1..]);
    } else if prog.Constructible(c) {
      var next := Created(prog, k, g, services, c);
      DeclaredRegisters(prog, k, next, services, declared[1..]);
      DeclaredExtends(prog, k, next, services, declared[1..]);
      RegistersFirst(c, |g.classOf|, next.reg, DeclaredRun(prog, k, next, services, declared[1..]).1.reg,
                     Creates(prog, next.reg.keys, declared[1..]));
    }
  }

  /** Registering `c` under `o`, then `rest` under the objects after it, registers `[c] + rest` from `o` on. */
  lemma RegistersFirst(c: ClassId, o: InstId, next: Registry, out: Registry, rest: seq<ClassId>)
    requires c in next.inst && next.inst[c] == o && Extends(next, out)
    requires forall i | 0 <= i < |rest| :: rest[i] in out.inst && out.inst[rest[i]] == o + 1 + i
    ensures forall i | 0 <= i < |[c] + rest| :: ([c] + rest)[i] in out.inst && out.inst[([c] + rest)[i]] == o + i
  {
    var added := [c] + rest;
    forall i | 0 <= i < |added| ensures added[i] in out.inst && out.inst[added[i]] == o + i {
      if i > 0 {
        assert added[i] == rest[i - 1];
      }
    }
  }

  /** When no construction throws, every declared class ends up registered. */
  lemma {:induction false} DeclaredAll(prog: Program, k: Kind, g: Gen, services: Registry, declared: seq<ClassId>)
    requires g.reg.Valid()
    ensures var run := DeclaredRun(prog, k, g, services, declared);
      run.0.None? ==> forall c | c in declared :: c in run.1.reg.inst
    decreases |declared|
  {
    if declared == [] {
      return;
    }
    DeclaredStep(prog, k, g, services, declared);
    var c := declared[0];
    var next := if c in g.reg.inst then g else Created(prog, k, g, services, c);
    if c in g.reg.inst || prog.Constructible(c) {
      DeclaredAll(prog, k, next, services, declared[1..]);
      DeclaredExtends(prog, k, next, services, declared[1..]);
      var out := DeclaredRun(prog, k, next, services, declared[1..]).1;
      forall d | d in declared ensures d in out.reg.inst || DeclaredRun(prog, k, next, services, declared[1..]).0.Some? {
        if d != c {
          assert d in declared[1..];
        }
      }
    }
  }

  /** The loop changes no field of an object it did not create. */
  lemma {:induction false} DeclaredKeeps(prog: Program, k: Kind, g: Gen, services: Registry, declared: seq<ClassId>)
    requires g.reg.Valid()
    ensures var out := DeclaredRun(prog, k, g, services, declared).1;
      |g.classOf| <= |out.classOf| &&
      forall key: (InstId, string) | key.0 < |g.classOf| || |out.classOf| <= key.0 :: Kept(g.fields, out.fields, key)
    decreases |declared|
  {
    if declared != [] {
      DeclaredStep(prog, k, g, services, declared);
      var c := declared[0];
      if c in g.reg.inst {
        DeclaredKeeps(prog, k, g, services, declared[1..]);
      } else if prog.Constructible(c) {
        var next := Created(prog, k, g, services, c);
        DeclaredKeeps(prog, k, next, services, declared[1..]);
        var o := |g.classOf|;
        var source := InjectFrom(k, g.reg.Put(c, o), services);
        forall key: (InstId, string) ensures key.0 != o ==> Kept(g.fields, next.fields, key) {
          InjectedAt(g.fields, prog.Decls(c), source.inst, o, key);
        }
      }
    }
  }

  /** Each object the loop creates receives exactly what injection gives it. */
  lemma {:induction false} DeclaredInjects(prog: Program, k: Kind, g: Gen, services: Registry, declared: seq<ClassId>)
    requires g.reg.Valid()
    ensures var out := DeclaredRun(prog, k, g, services, declared).1;
      && out.classOf == g.classOf + Creates(prog, g.reg.keys, declared)
      && out.reg.keys == g.reg.keys + Creates(prog, g.reg.keys, declared)
      && forall o, p | |g.classOf| <= o < |out.classOf| :: CreatedInjected(prog, k, g, out, services, o, p)
    decreases |declared|
  {
    DeclaredOrder(prog, k, g, services, declared);
    if declared == [] {
      return;
    }
    DeclaredStep(prog, k, g, services, declared);
    var c := declared[0];
    if c in g.reg.inst {
      DeclaredInjects(prog, k, g, services, declared[1..]);
    } else if prog.Constructible(c) {
      var next := Created(prog, k, g, services, c);
      DeclaredInjects(prog, k, next, services, declared[1..]);
      CreatedStep(prog, k, g, c, services, declared[1..]);
    }
  }

  /** `DeclaredInjects` for a loop whose first turn creates an object of class `c`. */
  lemma CreatedStep(prog: Program, k: Kind, g: Gen, c: ClassId, services: Registry, rest: seq<ClassId>)
    requires g.reg.Valid() && c !in g.reg.inst
    requires var next := Created(prog, k, g, services, c);
      var out := DeclaredRun(prog, k, next, services, rest).1;
      && out.classOf == next.classOf + Creates(prog, next.reg.keys, rest)
      && out.reg.keys == next.reg.keys + Creates(prog, next.reg.keys, rest)
      && forall o, p | |next.classOf| <= o < |out.classOf| :: CreatedInjected(prog, k, next, out, services, o, p)
    ensures var out := DeclaredRun(prog, k, Created(prog, k, g, services, c), services, rest).1;
      && |g.reg.keys| + |out.classOf| - |g.classOf| <= |out.reg.keys|
      && forall o, p | |g.classOf| <= o < |out.classOf| :: CreatedInjected(prog, k, g, out, services, o, p)
  {
    var next := Created(prog, k, g, services, c);
    var out := DeclaredRun(prog, k, next, services, rest).1;
    var n := |g.classOf|;
    var source := InjectFrom(k, next.reg, services);
    DeclaredKeeps(prog, k, next, services, rest);
    DeclaredExtends(prog, k, next, services, rest);
    forall o, p | n <= o < |out.classOf| ensures CreatedInjected(prog, k, g, out, services, o, p) {
      if o == n {
        CreatedFirst(prog, k, g, c, services, out, p);
      } else {
        CreatedLater(prog, k, g, next, c, services, out, o, p);
      }
    }
  }

  /** The object created first receives what injection gives it. */
  lemma CreatedFirst(prog: Program, k: Kind, g: Gen, c: ClassId, services: Registry, out: Gen, p: string)
    requires g.reg.Valid() && c !in g.reg.inst && out.reg.Valid()
    requires var next := Created(prog, k, g, services, c);
      && |next.classOf| <= |out.classOf| && out.classOf[|g.classOf|] == c
      && Extends(next.reg, out.reg) && Kept(next.fields, out.fields, (|g.classOf|, p))
    ensures |g.reg.keys| + 1 <= |out.reg.keys|
    ensures CreatedInjected(prog, k, g, out, services, |g.classOf|, p)
  {
    var next := Created(prog, k, g, services, c);
    var n := |g.classOf|;
    InjectedAt(g.fields, prog.Decls(c), InjectFrom(k, next.reg, services).inst, n, (n, p));
    if k == Services {
      PrefixOfExtension(next.reg, out.reg);
    }
  }

  /** An object created after the first receives, from `g`, what it receives from the state `next` after the first. */
  lemma CreatedLater(prog: Program, k: Kind, g: Gen, next: Gen, c: ClassId, services: Registry, out: Gen, o: InstId, p: string)
    requires next.reg.keys == g.reg.keys + [c] && next.classOf == g.classOf + [c]
    requires next.fields == Injected(g.fields, prog.Decls(c), InjectFrom(k, next.reg, services).inst, |g.classOf|)
    requires |next.classOf| <= o < |out.classOf|
    requires |next.reg.keys| + (o - |next.classOf|) + 1 <= |out.reg.keys|
    requires CreatedInjected(prog, k, next, out, services, o, p)
    ensures CreatedInjected(prog, k, g, out, services, o, p)
  {
    InjectedAt(g.fields, prog.Decls(c), InjectFrom(k, next.reg, services).inst, |g.classOf|, (o, p));
  }

  lemma AppendAssociates<T>(a: seq<T>, b: seq<T>, c: seq<T>)
    ensures a + b + c == a + (b + c)
  {
  }
}
