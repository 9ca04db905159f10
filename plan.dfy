/**
 * The shape of what compiling a route tree does to the server: which routers
 * are mounted where, and which method and path each leaf binds, in the order
 * the router does it. A group first handles all its children (a mount for each
 * nested group, a binding for each leaf with a method) and only then compiles
 * its nested groups, one after the other, as the rendering of the nested
 * `<Router>` elements it returned.
 */
module CompilePlan {
  import opened Wrappers
  import opened Paths
  import opened Routes
  import opened Express

  /** An event without the handler chain. */
  datatype Shape =
    | MountAt(parent: RouterId, path: string, child: RouterId)
    | BindAt(router: RouterId, verb: Method, path: string)

  function ShapeOf(e: Event): Shape {
    match e
    case Mount(p, path, c) => MountAt(p, path, c)
    case Bind(rt, v, path, _) => BindAt(rt, v, path)
  }

  function Shapes(log: seq<Event>): seq<Shape> {
    seq(|log|, i requires 0 <= i < |log| => ShapeOf(log[i]))
  }

  lemma ShapesAppend(a: seq<Event>, b: seq<Event>)
    ensures Shapes(a + b) == Shapes(a) + Shapes(b)
  {
  }

  /**
   * The nested groups among `children`, as (child index, router) pairs:
   * routers are created in child order, numbered from `next`.
   */
  function Pending(children: seq<Node>, next: RouterId): seq<(nat, RouterId)> {
    if children == [] then []
    else
      var init := Pending(children[..|children| - 1], next);
      if children[|children| - 1].Group? then init + [(|children| - 1, next + |init|)] else init
  }

  /** The pending entries are nested groups among the children. */
  lemma {:induction false} PendingGroups(children: seq<Node>, next: RouterId)
    ensures forall i | 0 <= i < |Pending(children, next)| ::
      Pending(children, next)[i].0 < |children| && children[Pending(children, next)[i].0].Group?
  {
    if children != [] {
      var init := children[..|children| - 1];
      PendingGroups(init, next);
    }
  }

  /** The pending entries of one more child. */
  lemma PendingSnoc(children: seq<Node>, i: nat, next: RouterId)
    requires i < |children|
    ensures Pending(children[..i + 1], next) == Pending(children[..i], next)
      + if children[i].Group? then [(i, next + |Pending(children[..i], next)|)] else []
  {
    var cs := children[..i + 1];
    assert cs[..|cs| - 1] == children[..i];
    assert cs[|cs| - 1] == children[i];
  }

  /** The pending entries so far, extended by the entry of child `i` (its router is `count`). */
  lemma PendingStep(children: seq<Node>, i: nat, next: RouterId, pending: seq<(nat, RouterId)>, entry: seq<(nat, RouterId)>, count: RouterId)
    requires i < |children| && pending == Pending(children[..i], next) && count == next + |pending|
    requires entry == if children[i].Group? then [(i, count)] else []
    ensures pending + entry == Pending(children[..i + 1], next)
  {
    PendingSnoc(children, i, next);
  }

  /** What handling one child does: a mount for a nested group (its router is `id`), a binding for a leaf with a method. */
  function ChildShapes(child: Node, rid: RouterId, id: RouterId): seq<Shape> {
    match child
    case Group(p, _) => [MountAt(rid, CreatePath(p.path), id)]
    case Leaf(l) => if l.verb.Some? then [BindAt(rid, l.verb.value, CreatePath(l.path))] else []
  }

  /** What handling `children` of the group with router `rid` does: mounts and bindings. */
  function MapShapes(children: seq<Node>, rid: RouterId, next: RouterId): seq<Shape> {
    if children == [] then []
    else
      var init := children[..|children| - 1];
      MapShapes(init, rid, next) + ChildShapes(children[|children| - 1], rid, next + |Pending(init, next)|)
  }

  /**
   * Compiling group `n` whose router is `rid`, with `next` the id of the next
   * router to be created: the shapes logged and the next free id afterwards.
   */
  function PlanGroup(n: Node, rid: RouterId, next: RouterId): (seq<Shape>, RouterId)
    requires n.Group?
    decreases n, 1
  {
    var pend := Pending(n.children, next);
    var nested := PlanNested(n, pend, 0, next + |pend|);
    (MapShapes(n.children, rid, next) + nested.0, nested.1)
  }

  /** The child of `n` a pending entry names, when it is a nested group. */
  predicate NestedAt(n: Node, e: (nat, RouterId))
    requires n.Group?
  {
    e.0 < |n.children| && n.children[e.0].Group?
  }

  /**
   * Compiling the nested groups `pend[j..]` of `n` in order (an entry that
   * names no nested group contributes nothing; `Pending` makes none).
   */
  function PlanNested(n: Node, pend: seq<(nat, RouterId)>, j: nat, next: RouterId): (seq<Shape>, RouterId)
    requires n.Group? && j <= |pend|
    decreases n, 0, |pend| - j
  {
    if j == |pend| then ([], next)
    else if NestedAt(n, pend[j]) then
      var first := PlanGroup(n.children[pend[j].0], pend[j].1, next);
      var rest := PlanNested(n, pend, j + 1, first.1);
      (first.0 + rest.0, rest.1)
    else PlanNested(n, pend, j + 1, next)
  }

  /** The leaves of a tree that bind a method. */
  function MethodLeaves(n: Node): nat
    decreases n, 1
  {
    match n
    case Leaf(l) => if l.verb.Some? then 1 else 0
    case Group(_, cs) => MethodLeavesAmong(n, |cs|)
  }

  function MethodLeavesAmong(n: Node, k: nat): nat
    requires n.Group? && k <= |n.children|
    decreases n, 0, k
  {
    if k == 0 then 0 else MethodLeavesAmong(n, k - 1) + MethodLeaves(n.children[k - 1])
  }

  /** The direct leaf children that bind a method. */
  function DirectLeaves(children: seq<Node>): nat {
    if children == [] then 0
    else
      var last := children[|children| - 1];
      DirectLeaves(children[..|children| - 1]) + if last.Leaf? && last.leaf.verb.Some? then 1 else 0
  }

  /** The method leaves under the nested groups `pend[j..]` of `n`. */
  function NestedLeaves(n: Node, pend: seq<(nat, RouterId)>, j: nat): nat
    requires n.Group? && j <= |pend|
    decreases |pend| - j
  {
    if j == |pend| then 0
    else (if NestedAt(n, pend[j]) then MethodLeaves(n.children[pend[j].0]) else 0) + NestedLeaves(n, pend, j + 1)
  }

  function CountBinds(s: seq<Shape>): nat {
    if s == [] then 0 else CountBinds(s[..|s| - 1]) + if s[|s| - 1].BindAt? then 1 else 0
  }

  lemma {:induction false} CountBindsAppend(a: seq<Shape>, b: seq<Shape>)
    ensures CountBinds(a + b) == CountBinds(a) + CountBinds(b)
    decreases |b|
  {
    if b != [] {
      assert (a + b)[..|a + b| - 1] == a + b[..|b| - 1];
      CountBindsAppend(a, b[..|b| - 1]);
    } else {
      assert a + b == a;
    }
  }

  lemma {:induction false} DirectBinds(children: seq<Node>, rid: RouterId, next: RouterId)
    ensures CountBinds(MapShapes(children, rid, next)) == DirectLeaves(children)
    decreases |children|
  {
    if children != [] {
      var init := children[..|children| - 1];
      DirectBinds(init, rid, next);
      var last := children[|children| - 1];
      CountBindsAppend(MapShapes(init, rid, next), ChildShapes(last, rid, next + |Pending(init, next)|));
    }
  }

  lemma {:induction false} NestedLeavesAppend(n: Node, pend: seq<(nat, RouterId)>, x: (nat, RouterId), j: nat)
    requires n.Group? && j <= |pend| && NestedAt(n, x)
    ensures NestedLeaves(n, pend + [x], j) == NestedLeaves(n, pend, j) + MethodLeaves(n.children[x.0])
    decreases |pend| - j
  {
    if j < |pend| {
      NestedLeavesAppend(n, pend, x, j + 1);
    }
  }

  /** The method leaves under the first `k` children are the direct ones plus those in nested groups. */
  lemma {:induction false} LeavesSplit(n: Node, k: nat, next: RouterId)
    requires n.Group? && k <= |n.children|
    ensures MethodLeavesAmong(n, k) == DirectLeaves(n.children[..k]) + NestedLeaves(n, Pending(n.children[..k], next), 0)
    decreases k
  {
    var cs := n.children[..k];
    if k > 0 {
      LeavesSplit(n, k - 1, next);
      assert cs[..k - 1] == n.children[..k - 1];
      var last := n.children[k - 1];
      if last.Group? {
        var init := Pending(cs[..k - 1], next);
        NestedLeavesAppend(n, init, (k - 1, next + |init|), 0);
      }
    }
  }

  /**
   * Compiling a group logs exactly one binding per leaf of its tree that has a
   * method, nested groups included.
   */
  lemma {:induction false} OneBindingPerLeaf(n: Node, rid: RouterId, next: RouterId)
    requires n.Group?
    ensures CountBinds(PlanGroup(n, rid, next).0) == MethodLeaves(n)
    decreases n, 1
  {
    var pend := Pending(n.children, next);
    var direct := MapShapes(n.children, rid, next);
    var nested := PlanNested(n, pend, 0, next + |pend|).0;
    assert PlanGroup(n, rid, next).0 == direct + nested;
    NestedBinds(n, pend, 0, next + |pend|);
    DirectBinds(n.children, rid, next);
    CountBindsAppend(direct, nested);
    LeavesOfGroup(n, next);
  }

  /** The method leaves of a group are its direct ones plus those of its nested groups. */
  lemma LeavesOfGroup(n: Node, next: RouterId)
    requires n.Group?
    ensures MethodLeaves(n) == DirectLeaves(n.children) + NestedLeaves(n, Pending(n.children, next), 0)
  {
    assert n.children[..|n.children|] == n.children;
    LeavesSplit(n, |n.children|, next);
  }

  lemma {:induction false} NestedBinds(n: Node, pend: seq<(nat, RouterId)>, j: nat, next: RouterId)
    requires n.Group? && j <= |pend|
    ensures CountBinds(PlanNested(n, pend, j, next).0) == NestedLeaves(n, pend, j)
    decreases n, 0, |pend| - j
  {
    if j < |pend| {
      if NestedAt(n, pend[j]) {
        var first := PlanGroup(n.children[pend[j].0], pend[j].1, next);
        OneBindingPerLeaf(n.children[pend[j].0], pend[j].1, next);
        NestedBinds(n, pend, j + 1, first.1);
        CountBindsAppend(first.0, PlanNested(n, pend, j + 1, first.1).0);
      } else {
        NestedBinds(n, pend, j + 1, next);
      }
    }
  }

  /** Rendering nested group `j` of `n` advances the plan of `n`'s nested groups by one. */
  lemma NestedStep(n: Node, pend: seq<(nat, RouterId)>, j: nat, next: RouterId, first: RouterId,
                   start: nat, before: seq<Event>, after: seq<Event>)
    requires n.Group? && j < |pend| && NestedAt(n, pend[j])
    requires start <= |before| && before <= after
    requires Shapes(before[start..]) + PlanNested(n, pend, j, next).0 == PlanNested(n, pend, 0, first).0
    requires PlanNested(n, pend, j, next).1 == PlanNested(n, pend, 0, first).1
    requires Shapes(after[|before|..]) == PlanGroup(n.children[pend[j].0], pend[j].1, next).0
    ensures var next' := PlanGroup(n.children[pend[j].0], pend[j].1, next).1;
      && Shapes(after[start..]) + PlanNested(n, pend, j + 1, next').0 == PlanNested(n, pend, 0, first).0
      && PlanNested(n, pend, j + 1, next').1 == PlanNested(n, pend, 0, first).1
  {
    var g := PlanGroup(n.children[pend[j].0], pend[j].1, next);
    var rest := PlanNested(n, pend, j + 1, g.1);
    assert PlanNested(n, pend, j, next) == (g.0 + rest.0, rest.1);
    var done := Shapes(before[start..]);
    assert after[start..] == before[start..] + after[|before|..];
    ShapesAppend(before[start..], after[|before|..]);
    assert Shapes(after[start..]) == done + g.0;
    assert (done + g.0) + rest.0 == done + (g.0 + rest.0);
  }

  /** Handling child `i` of a group extends the shapes of its first `i` children by that child's. */
  lemma ChildStep(children: seq<Node>, i: nat, rid: RouterId, first: RouterId,
                  start: nat, before: seq<Event>, after: seq<Event>)
    requires i < |children| && start <= |before| && before <= after
    requires Shapes(before[start..]) == MapShapes(children[..i], rid, first)
    requires Shapes(after[|before|..]) == ChildShapes(children[i], rid, first + |Pending(children[..i], first)|)
    ensures Shapes(after[start..]) == MapShapes(children[..i + 1], rid, first)
  {
    assert after[start..] == before[start..] + after[|before|..];
    ShapesAppend(before[start..], after[|before|..]);
    MapShapesSnoc(children, i, rid, first);
  }

  lemma MapShapesSnoc(children: seq<Node>, i: nat, rid: RouterId, first: RouterId)
    requires i < |children|
    ensures MapShapes(children[..i + 1], rid, first)
      == MapShapes(children[..i], rid, first) + ChildShapes(children[i], rid, first + |Pending(children[..i], first)|)
  {
    var cs := children[..i + 1];
    assert cs[..|cs| - 1] == children[..i];
    assert cs[|cs| - 1] == children[i];
  }

  /** The nested groups of a tree, at any depth. */
  function GroupsBelow(n: Node): nat
    decreases n, 1
  {
    match n
    case Leaf(_) => 0
    case Group(_, cs) => GroupsAmong(n, |cs|)
  }

  function GroupsAmong(n: Node, k: nat): nat
    requires n.Group? && k <= |n.children|
    decreases n, 0, k
  {
    if k == 0 then 0
    else GroupsAmong(n, k - 1) + if n.children[k - 1].Group? then 1 + GroupsBelow(n.children[k - 1]) else 0
  }

  /** The nested groups under the pending groups `pend[j..]` of `n`. */
  function NestedGroups(n: Node, pend: seq<(nat, RouterId)>, j: nat): nat
    requires n.Group? && j <= |pend|
    decreases |pend| - j
  {
    if j == |pend| then 0
    else (if NestedAt(n, pend[j]) then GroupsBelow(n.children[pend[j].0]) else 0) + NestedGroups(n, pend, j + 1)
  }

  /**
   * Compiling a group creates one router per nested group of its tree, at any
   * depth, numbered consecutively from `next`.
   */
  lemma {:induction false} OneRouterPerGroup(n: Node, rid: RouterId, next: RouterId)
    requires n.Group?
    ensures PlanGroup(n, rid, next).1 == next + GroupsBelow(n)
    decreases n, 1
  {
    var pend := Pending(n.children, next);
    NestedRouters(n, pend, 0, next + |pend|);
    assert n.children[..|n.children|] == n.children;
    GroupsSplit(n, |n.children|, next);
  }

  lemma {:induction false} NestedRouters(n: Node, pend: seq<(nat, RouterId)>, j: nat, next: RouterId)
    requires n.Group? && j <= |pend|
    ensures PlanNested(n, pend, j, next).1 == next + NestedGroups(n, pend, j)
    decreases n, 0, |pend| - j
  {
    if j < |pend| {
      if NestedAt(n, pend[j]) {
        var first := PlanGroup(n.children[pend[j].0], pend[j].1, next);
        OneRouterPerGroup(n.children[pend[j].0], pend[j].1, next);
        NestedRouters(n, pend, j + 1, first.1);
      } else {
        NestedRouters(n, pend, j + 1, next);
      }
    }
  }

  lemma {:induction false} NestedGroupsAppend(n: Node, pend: seq<(nat, RouterId)>, x: (nat, RouterId), j: nat)
    requires n.Group? && j <= |pend| && NestedAt(n, x)
    ensures NestedGroups(n, pend + [x], j) == NestedGroups(n, pend, j) + GroupsBelow(n.children[x.0])
    decreases |pend| - j
  {
    if j < |pend| {
      NestedGroupsAppend(n, pend, x, j + 1);
    }
  }

  /** The nested groups under the first `k` children: one per pending group, plus those below them. */
  lemma {:induction false} GroupsSplit(n: Node, k: nat, next: RouterId)
    requires n.Group? && k <= |n.children|
    ensures GroupsAmong(n, k) == |Pending(n.children[..k], next)| + NestedGroups(n, Pending(n.children[..k], next), 0)
    decreases k
  {
    var cs := n.children[..k];
    if k > 0 {
      GroupsSplit(n, k - 1, next);
      assert cs[..k - 1] == n.children[..k - 1];
      if n.children[k - 1].Group? {
        var init := Pending(cs[..k - 1], next);
        NestedGroupsAppend(n, init, (k - 1, next + |init|), 0);
      }
    }
  }

  /**
   * The plan of a group is its children's shapes followed by its nested
   * groups' plans, and it ends where the last nested group's plan ends.
   */
  lemma GroupComposes(n: Node, rid: RouterId, first: RouterId, pend: seq<(nat, RouterId)>,
                      start: nat, middle: seq<Event>, after: seq<Event>, count: RouterId)
    requires n.Group? && pend == Pending(n.children, first)
    requires start <= |middle| && middle <= after
    requires Shapes(middle[start..]) == MapShapes(n.children, rid, first)
    requires Shapes(after[|middle|..]) == PlanNested(n, pend, 0, first + |pend|).0
    requires count == PlanNested(n, pend, 0, first + |pend|).1
    ensures Shapes(after[start..]) == PlanGroup(n, rid, first).0
    ensures count == PlanGroup(n, rid, first).1
    ensures CountBinds(Shapes(after[start..])) == MethodLeaves(n)
    ensures count == first + GroupsBelow(n)
  {
    assert PlanGroup(n, rid, first) == (MapShapes(n.children, rid, first) + PlanNested(n, pend, 0, first + |pend|).0, count);
    assert after[start..] == middle[start..] + after[|middle|..];
    ShapesAppend(middle[start..], after[|middle|..]);
    OneBindingPerLeaf(n, rid, first);
    OneRouterPerGroup(n, rid, first);
  }
}
