/** The `@Inject()` property decorator, which records injection points on a class. */
module Decorators {
  import opened Registries
  import opened Heaps

  /**
   * Applying `@Inject()` to field `key` of class `target`, whose declared type
   * (its `design:type` metadata) is `propType`: the class's list is read
   * (empty when none was recorded), one entry is pushed onto it, and the list is
   * written back. Nothing else on the heap changes; the field itself is not set.
   */
  method Inject(heap: Heap, target: ClassId, key: string, propType: ClassId)
    modifies heap
    ensures heap.Classes().Decls(target) == old(heap.Classes().Decls(target)) + [InjectDecl(key, propType)]
    ensures forall c | c != target :: heap.Classes().Decls(c) == old(heap.Classes().Decls(c))
    ensures heap.meta.Keys == old(heap.meta.Keys) + {target}
    ensures heap.classOf == old(heap.classOf) && heap.fields == old(heap.fields)
    ensures heap.params == old(heap.params)
  {
    var previousKeys := heap.Classes().Decls(target);
    previousKeys := previousKeys + [InjectDecl(key, propType)];
    heap.meta := heap.meta[target := previousKeys];
  }
}
