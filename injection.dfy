/**
 * Dependency injection as the router performs it: for each `{prop, type}`
 * entry recorded on an object's class, in order, the field is set to the
 * group's service of that class, when the group has one.
 */
module Injection {
  import opened Wrappers
  import opened Registries
  import opened Heaps

  /** The fields after injecting `decls` into object `o` from the service registry `services`. */
  function Injected(fields: map<(InstId, string), InstId>, decls: seq<InjectDecl>,
                    services: map<ClassId, InstId>, o: InstId): map<(InstId, string), InstId>
  {
    if decls == [] then fields
    else
      var before := Injected(fields, decls[..|decls| - 1], services, o);
      var d := decls[|decls| - 1];
      if d.declared in services then before[(o, d.prop) := services[d.declared]] else before
  }

  /**
   * The service field `name` ends up holding: that of the last entry for
   * `name` whose class has a service, if any.
   */
  function LastService(decls: seq<InjectDecl>, services: map<ClassId, InstId>, name: string): (r: Option<InstId>)
    ensures r.Some? <==> exists i | 0 <= i < |decls| :: decls[i].prop == name && decls[i].declared in services
  {
    if decls == [] then None
    else
      var d := decls[|decls| - 1];
      if d.prop == name && d.declared in services then Some(services[d.declared])
      else
        var r := LastService(decls[..|decls| - 1], services, name);
        assert forall i | 0 <= i < |decls| - 1 :: decls[..|decls| - 1][i] == decls[i];
        r
  }

  /**
   * Injection sets exactly the fields of `o` named by an entry whose service
   * exists, each to the service of the last such entry; every other field of
   * every object is left as it was.
   */
  lemma {:induction false} InjectedAt(fields: map<(InstId, string), InstId>, decls: seq<InjectDecl>,
                                      services: map<ClassId, InstId>, o: InstId, key: (InstId, string))
    ensures var r := Injected(fields, decls, services, o);
      if key.0 == o && LastService(decls, services, key.1).Some? then
        key in r && r[key] == LastService(decls, services, key.1).value
      else
        (key in r <==> key in fields) && (key in fields ==> r[key] == fields[key])
  {
    if decls != [] {
      InjectedAt(fields, decls[..|decls| - 1], services, o, key);
    }
  }

  /**
   * Injecting the same entries twice leaves the fields as injecting them once:
   * the controller of a group, injected again for each of its leaves, keeps
   * the same fields.
   */
  lemma InjectionIdempotent(fields: map<(InstId, string), InstId>, decls: seq<InjectDecl>,
                            services: map<ClassId, InstId>, o: InstId)
    ensures Injected(Injected(fields, decls, services, o), decls, services, o) == Injected(fields, decls, services, o)
  {
    var once := Injected(fields, decls, services, o);
    var twice := Injected(once, decls, services, o);
    forall key
      ensures (key in twice <==> key in once) && (key in once ==> twice[key] == once[key])
    {
      InjectedAt(fields, decls, services, o, key);
      InjectedAt(once, decls, services, o, key);
    }
  }
}
