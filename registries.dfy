/**
 * The collaborator registries a group keeps (`controllers`, `pipes`,
 * `interceptors`, `filters`, `services`): JavaScript objects keyed by class,
 * whose iteration order is the order in which keys were first assigned.
 */
module Registries {
  import opened Wrappers

  /** A class as used for a registry key (the class's string form in JavaScript). */
  type ClassId = string

  /** An object on the heap, by allocation index. */
  type InstId = nat

  /** One `{_class, _instance}` pair of a snapshot handed to a nested group. */
  type Entry = (ClassId, InstId)

  /** The class the framework registers a group's own validation pipe under. */
  const VALIDATION_PIPE: ClassId := "ValidationPipe"

  datatype Registry = Registry(keys: seq<ClassId>, inst: map<ClassId, InstId>) {

    /** Keys are listed once each, and the listed keys are exactly the assigned ones. */
    ghost predicate Valid() {
      && (forall i, j | 0 <= i < j < |keys| :: keys[i] != keys[j])
      && (forall c :: c in inst <==> c in keys)
    }

    /** `this.pipes[c]`. */
    function Get(c: ClassId): Option<InstId> {
      if c in inst then Some(inst[c]) else None
    }

    /**
     * `this.pipes[c] = o`: a new key goes to the end of the iteration order,
     * an existing key keeps its place and only its instance changes.
     */
    function Put(c: ClassId, o: InstId): (r: Registry)
      requires Valid()
      ensures r.Valid()
      ensures r.inst == inst[c := o]
      ensures r.keys == if c in inst then keys else keys + [c]
    {
      if c in inst then Registry(keys, inst[c := o]) else Registry(keys + [c], inst[c := o])
    }

    /** The `{_class, _instance}` pairs in iteration order (`Object.keys` then lookup). */
    function Entries(): (s: seq<Entry>)
      requires Valid()
      ensures |s| == |keys|
      ensures forall i | 0 <= i < |s| :: s[i].0 == keys[i] && s[i].1 == inst[keys[i]]
    {
      seq(|keys|, i requires 0 <= i < |keys| => (keys[i], inst[keys[i]]))
    }

    /** The instances in iteration order, as a `for...in` loop visits them. */
    function Values(): (s: seq<InstId>)
      requires Valid()
      ensures |s| == |keys|
      ensures forall i | 0 <= i < |s| :: s[i] == inst[keys[i]]
    {
      seq(|keys|, i requires 0 <= i < |keys| => inst[keys[i]])
    }
  }

  /** `b` keeps every key of `a` in the same place, with the same instance. */
  ghost predicate Extends(a: Registry, b: Registry) {
    a.keys <= b.keys && forall c | c in a.inst :: c in b.inst && b.inst[c] == a.inst[c]
  }

  /** As `Extends`, except that the instance under `x` may have been replaced. */
  ghost predicate ExtendsBut(a: Registry, b: Registry, x: ClassId) {
    a.keys <= b.keys && forall c | c in a.inst && c != x :: c in b.inst && b.inst[c] == a.inst[c]
  }

  /** A registry as a group starts with it (`{}`). */
  const EMPTY := Registry([], map[])

  /** Assigns every pair of a snapshot in order, as a nested group does with its parent's. */
  function InstallAll(r: Registry, snapshot: seq<Entry>): Registry
    requires r.Valid()
    ensures InstallAll(r, snapshot).Valid()
  {
    if snapshot == [] then r
    else
      var last := snapshot[|snapshot| - 1];
      InstallAll(r, snapshot[..|snapshot| - 1]).Put(last.0, last.1)
  }

  /** The part of a registry made of its first `n` keys. */
  function Prefix(r: Registry, n: nat): Registry
    requires n <= |r.keys|
  {
    Registry(r.keys[..n], map c | c in r.keys[..n] && c in r.inst :: r.inst[c])
  }

  /** Assigning the next key of `r` to its first `n` keys gives its first `n + 1` keys. */
  lemma PrefixGrows(r: Registry, n: nat)
    requires r.Valid() && n < |r.keys|
    ensures Prefix(r, n).Valid()
    ensures Prefix(r, n).Put(r.keys[n], r.inst[r.keys[n]]) == Prefix(r, n + 1)
  {
    var p := Prefix(r, n);
    assert r.keys[n] !in r.keys[..n];
    assert r.keys[..n + 1] == r.keys[..n] + [r.keys[n]];
    var q := p.Put(r.keys[n], r.inst[r.keys[n]]);
    assert q.inst == Prefix(r, n + 1).inst;
  }

  /** Installing the first `n` pairs of a snapshot rebuilds the first `n` keys. */
  lemma {:induction false} InstallPrefix(src: Registry, n: nat)
    requires src.Valid() && n <= |src.keys|
    ensures InstallAll(EMPTY, src.Entries()[..n]) == Prefix(src, n)
  {
    var es := src.Entries();
    if n == 0 {
      assert Prefix(src, 0).inst == map[];
    } else {
      InstallPrefix(src, n - 1);
      assert es[..n][..n - 1] == es[..n - 1];
      PrefixGrows(src, n - 1);
    }
  }

  /**
   * A nested group that installs its parent's snapshot into an empty registry
   * ends up with the parent's registry: same classes, same order, same instances.
   */
  lemma InstallSnapshotRestores(src: Registry)
    requires src.Valid()
    ensures InstallAll(EMPTY, src.Entries()) == src
  {
    InstallPrefix(src, |src.keys|);
    assert src.Entries()[..|src.keys|] == src.Entries();
    PrefixWhole(src);
  }

  /** All the keys of a registry make up the registry. */
  lemma PrefixWhole(r: Registry)
    requires r.Valid()
    ensures Prefix(r, |r.keys|) == r
  {
    var whole := Prefix(r, |r.keys|);
    assert r.keys[..|r.keys|] == r.keys;
    assert forall c :: c in whole.inst <==> c in r.inst;
    assert whole.inst == r.inst;
  }

  /** A registry that extends `a` begins with `a`. */
  lemma PrefixOfExtension(a: Registry, b: Registry)
    requires a.Valid() && b.Valid() && Extends(a, b)
    ensures Prefix(b, |a.keys|) == a
  {
    var p := Prefix(b, |a.keys|);
    assert p.keys == a.keys;
    assert p.inst == a.inst by {
      forall c ensures c in p.inst <==> c in a.inst {
        assert c in p.keys <==> c in a.keys;
      }
    }
  }

  lemma ExtendsTransitive(a: Registry, b: Registry, c: Registry)
    requires Extends(a, b) && Extends(b, c)
    ensures Extends(a, c)
  {
  }
}
