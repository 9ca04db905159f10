/**
 * The part of the JavaScript heap the router touches: which class each object
 * was constructed from, the fields dependency injection assigns, the options
 * given to validation pipes, and the injection metadata `@Inject` records on
 * each class.
 */
module Heaps {
  import opened Wrappers
  import opened Registries

  /** A `ValidatorOptions` object given as a group's or a leaf's `validate` option. */
  type Options = nat

  /** One `{prop, type}` entry recorded by `@Inject`: field `prop` wants a service of class `declared`. */
  datatype InjectDecl = InjectDecl(prop: string, declared: ClassId)

  /**
   * What the program declares about a class: whether `new C()` succeeds, and
   * the property names a fresh instance has with a truthy value (its methods).
   */
  datatype ClassInfo = ClassInfo(constructible: bool, members: set<string>)

  /** `new C()` returns an object rather than throwing. */
  predicate Constructs(classes: map<ClassId, ClassInfo>, c: ClassId) {
    c in classes && classes[c].constructible
  }

  /**
   * The program's classes and the injection metadata recorded on them: all
   * that creating and injecting an object depends on besides the heap itself.
   */
  datatype Program = Program(classes: map<ClassId, ClassInfo>, meta: map<ClassId, seq<InjectDecl>>)
  {
    predicate Constructible(c: ClassId) {
      Constructs(classes, c)
    }

    /** `Reflect.getMetadata(InjectDecoratorKey, C) || []`. */
    function Decls(c: ClassId): seq<InjectDecl> {
      if c in meta then meta[c] else []
    }
  }

  class Heap {
    /** The program's classes; a name missing here is not a class. */
    const classes: map<ClassId, ClassInfo>
    /** `classOf[o]` is the class object `o` was constructed from. */
    var classOf: seq<ClassId>
    /** `o[prop]` for the fields dependency injection has assigned. */
    var fields: map<(InstId, string), InstId>
    /** `params` of each validation pipe the router created. */
    var params: map<InstId, Options>
    /** The `InjectDecoratorKey` metadata recorded on each class. */
    var meta: map<ClassId, seq<InjectDecl>>

    constructor (classes: map<ClassId, ClassInfo>)
      ensures this.classes == classes
      ensures classOf == [] && fields == map[] && params == map[] && meta == map[]
    {
      this.classes := classes;
      classOf, fields, params, meta := [], map[], map[], map[];
    }

    /** The classes and their metadata as they stand now. */
    function Classes(): Program
      reads this`meta
    {
      Program(classes, meta)
    }

    predicate Constructible(c: ClassId) {
      Constructs(classes, c)
    }

    /** `o[name]` is truthy: a method of its class or a field injection assigned. */
    predicate HasMember(o: InstId, name: string)
      reads this
      requires o < |classOf|
    {
      (classOf[o] in classes && name in classes[classOf[o]].members) || (o, name) in fields
    }

    /** `new C()`: a fresh object, or nothing when `C` cannot be constructed. */
    method New(c: ClassId) returns (r: Option<InstId>)
      modifies this
      ensures Constructible(c) ==> r == Some(|old(classOf)|) && classOf == old(classOf) + [c]
      ensures !Constructible(c) ==> r == None && classOf == old(classOf)
      ensures fields == old(fields) && params == old(params) && meta == old(meta)
    {
      if Constructible(c) {
        r := Some(|classOf|);
        classOf := classOf + [c];
      } else {
        r := None;
      }
    }

    /** `const p = new ValidationPipe(); p.params = options`. */
    method NewValidationPipe(options: Options) returns (o: InstId)
      modifies this
      ensures o == |old(classOf)| && classOf == old(classOf) + [VALIDATION_PIPE]
      ensures params == old(params)[o := options]
      ensures fields == old(fields) && meta == old(meta)
    {
      o := |classOf|;
      classOf := classOf + [VALIDATION_PIPE];
      params := params[o := options];
    }
  }
}
