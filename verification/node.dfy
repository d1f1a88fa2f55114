/**
 * Node.java with its two subclasses folded in: a scene-graph entity with a
 * local translation and orientation, a parent link and a list of children.
 * What a SolidNode or a CameraNode adds is the `kind` of the node: plain, a
 * solid carrying a mesh, or a camera carrying its frustum.
 *
 * `addChild` refuses a child that already has a parent but nothing stops a
 * cycle, so the global getters take a ghost set of nodes and a bound on the
 * length of the parent chain, and require the chain to reach a root within it.
 */
module Nodes {
  import opened Vec3
  import opened Quaternions
  import opened Solids
  import opened Cameras

  datatype NodeKind = PlainNode | SolidNode(mesh: Mesh) | CameraNode(camera: Camera)

  class Node {
    var lTranslation: Vector3
    var lOrientation: Quaternion
    var parent: Node?
    var children: seq<Node>
    const kind: NodeKind

    /** `Node(translation, orientation)`: no parent, no children. */
    constructor (translation: Vector3, orientation: Quaternion)
      ensures lTranslation == translation && lOrientation == orientation
      ensures parent == null && children == [] && kind == PlainNode
    {
      lTranslation := translation;
      lOrientation := orientation;
      parent := null;
      children := [];
      kind := PlainNode;
    }

    /** `Node(orientation)`: at the origin. */
    constructor WithOrientation(orientation: Quaternion)
      ensures lTranslation == Origin && lOrientation == orientation
      ensures parent == null && children == [] && kind == PlainNode
    {
      lTranslation := Origin;
      lOrientation := orientation;
      parent := null;
      children := [];
      kind := PlainNode;
    }

    /** `Node()`: at the origin with the identity orientation. */
    constructor Default()
      ensures lTranslation == Origin && lOrientation == IdentityQuaternion
      ensures parent == null && children == [] && kind == PlainNode
    {
      lTranslation := Origin;
      lOrientation := IdentityQuaternion;
      parent := null;
      children := [];
      kind := PlainNode;
    }

    /** The `Node()` part of a `SolidNode` constructor, around the given mesh. */
    constructor Solid(mesh: Mesh)
      ensures lTranslation == Origin && lOrientation == IdentityQuaternion
      ensures parent == null && children == [] && kind == SolidNode(mesh)
    {
      lTranslation := Origin;
      lOrientation := IdentityQuaternion;
      parent := null;
      children := [];
      kind := SolidNode(mesh);
    }

    /**
     * `CameraNode(translation, orientation, aspect, yFov, near, far)`: the
     * implicit `Node()` leaves it without parent or children, then every
     * argument is stored.
     */
    constructor Camera(translation: Vector3, orientation: Quaternion,
                       aspect: real, yFov: real, near: real, far: real)
      ensures lTranslation == translation && lOrientation == orientation
      ensures parent == null && children == []
      ensures kind == CameraNode(Cameras.Camera(aspect, yFov, near, far))
    {
      lTranslation := translation;
      lOrientation := orientation;
      parent := null;
      children := [];
      kind := CameraNode(Cameras.Camera(aspect, yFov, near, far));
    }

    /**
     * `addChild(child)`: refused (Java exits) when the child already has a
     * parent; otherwise the child goes at the end of the children and this
     * node becomes its parent. Nothing else changes.
     */
    method AddChild(child: Node) returns (ok: bool)
      modifies this, child
      ensures ok <==> old(child.parent) == null
      ensures ok ==> children == old(children) + [child] && child.parent == this
      ensures !ok ==> children == old(children) && child.parent == old(child.parent)
      ensures child != this ==> parent == old(parent) && child.children == old(child.children)
      ensures lTranslation == old(lTranslation) && lOrientation == old(lOrientation)
      ensures child.lTranslation == old(child.lTranslation) && child.lOrientation == old(child.lOrientation)
    {
      if child.parent != null {
        return false;
      }
      children := children + [child];
      child.parent := this;
      ok := true;
    }

    /** `rotate(r)`: the local orientation becomes `lOrientation.multiply(r)`. */
    method Rotate(rotation: Quaternion)
      modifies this
      ensures lOrientation == old(lOrientation).Multiply(rotation)
      ensures lTranslation == old(lTranslation) && parent == old(parent) && children == old(children)
    {
      lOrientation := lOrientation.Multiply(rotation);
    }

    /** `translate(t)`, in Node and in CameraNode alike: `t` added to the local translation. */
    method Translate(translation: Vector3)
      modifies this
      ensures lTranslation == old(lTranslation).Add(translation)
      ensures lTranslation.Subtract(translation) == old(lTranslation)
      ensures lOrientation == old(lOrientation) && parent == old(parent) && children == old(children)
    {
      lTranslation := lTranslation.Add(translation);
    }

    /**
     * `getGlobalPosition()`: at a root the local translation; below a parent
     * the local translation rotated by the parent's LOCAL orientation (not
     * its global one) plus the parent's global position.
     */
    function GlobalPosition(ghost nodes: set<Node>, ghost k: nat): (p: Vector3)
      requires RootWithin(this, nodes, k)
      reads nodes
      ensures parent == null ==> p == lTranslation
      decreases k
    {
      if parent != null then
        Quaternions.Rotate(lTranslation, parent.lOrientation).Add(parent.GlobalPosition(nodes, k - 1))
      else lTranslation
    }

    /** `getGlobalOrientation()`: at a root the local orientation, otherwise `parentGlobal.multiply(local)`. */
    function GlobalOrientation(ghost nodes: set<Node>, ghost k: nat): (q: Quaternion)
      requires RootWithin(this, nodes, k)
      reads nodes
      ensures parent == null ==> q == lOrientation
      decreases k
    {
      if parent != null then parent.GlobalOrientation(nodes, k - 1).Multiply(lOrientation)
      else lOrientation
    }
  }

  /** The parent chain from `n` stays inside `nodes` and reaches a root within `k` steps. */
  predicate RootWithin(n: Node, nodes: set<Node>, k: nat)
    reads nodes
    decreases k
  {
    n in nodes && (n.parent != null ==> k > 0 && RootWithin(n.parent, nodes, k - 1))
  }

  /** A looser bound works as well. */
  lemma {:induction false} RootWithinMonotone(n: Node, nodes: set<Node>, k: nat, m: nat)
    requires RootWithin(n, nodes, k) && k <= m
    ensures RootWithin(n, nodes, m)
    decreases k
  {
    if n.parent != null {
      RootWithinMonotone(n.parent, nodes, k - 1, m - 1);
    }
  }

  /** Every node on the chain from `n` to its root has the identity orientation. */
  predicate IdentityChain(n: Node, nodes: set<Node>, k: nat)
    requires RootWithin(n, nodes, k)
    reads nodes
    decreases k
  {
    n.lOrientation == IdentityQuaternion && (n.parent != null ==> IdentityChain(n.parent, nodes, k - 1))
  }

  /** The local translations of the chain from `n` to its root, added up. */
  function TranslationSum(n: Node, nodes: set<Node>, k: nat): Vector3
    requires RootWithin(n, nodes, k)
    reads nodes
    decreases k
  {
    if n.parent != null then n.lTranslation.Add(TranslationSum(n.parent, nodes, k - 1)) else n.lTranslation
  }

  /** The answer of the global getters does not depend on the bound used to reach it. */
  lemma {:induction false} GlobalsIgnoreBound(n: Node, nodes: set<Node>, k: nat, m: nat)
    requires RootWithin(n, nodes, k) && RootWithin(n, nodes, m)
    ensures n.GlobalPosition(nodes, k) == n.GlobalPosition(nodes, m)
    ensures n.GlobalOrientation(nodes, k) == n.GlobalOrientation(nodes, m)
    decreases k
  {
    if n.parent != null {
      GlobalsIgnoreBound(n.parent, nodes, k - 1, m - 1);
    }
  }

  /** With identity orientations all the way up, the global position is the sum of the local translations. */
  lemma {:induction false} IdentityChainSumsTranslations(n: Node, nodes: set<Node>, k: nat)
    requires RootWithin(n, nodes, k) && IdentityChain(n, nodes, k)
    ensures n.GlobalPosition(nodes, k) == TranslationSum(n, nodes, k)
    decreases k
  {
    if n.parent != null {
      IdentityChainSumsTranslations(n.parent, nodes, k - 1);
      RotateByIdentity(n.lTranslation);
    }
  }

  /** With identity orientations all the way up, the global orientation is the identity. */
  lemma {:induction false} IdentityChainHasIdentityOrientation(n: Node, nodes: set<Node>, k: nat)
    requires RootWithin(n, nodes, k) && IdentityChain(n, nodes, k)
    ensures n.GlobalOrientation(nodes, k) == IdentityQuaternion
    decreases k
  {
    if n.parent != null {
      IdentityChainHasIdentityOrientation(n.parent, nodes, k - 1);
      IdentityIsUnit(IdentityQuaternion);
    }
  }

  // ---------------------------------------------------------------------
  // Traversal of the children
  // ---------------------------------------------------------------------

  /**
   * The subtree below `n` lies inside `nodes`, every child links back to its
   * parent, and no path down is longer than `d`: the scenes `addChild`
   * builds without a cycle.
   */
  ghost predicate Tree(n: Node, nodes: set<Node>, d: nat)
    reads nodes
    decreases d
  {
    n in nodes && (d == 0 ==> n.children == []) &&
    forall i :: 0 <= i < |n.children| ==>
      n.children[i] in nodes && n.children[i].parent == n && d > 0 && Tree(n.children[i], nodes, d - 1)
  }

  /** `s` is a child of `n`, or a child of a child, and so on, within `d` steps down. */
  ghost predicate Reaches(n: Node, s: Node, nodes: set<Node>, d: nat)
    reads nodes
    decreases d
  {
    n in nodes && d > 0 &&
    exists i :: 0 <= i < |n.children| && (n.children[i] == s || Reaches(n.children[i], s, nodes, d - 1))
  }

  /**
   * The solids below `n` in depth-first pre-order: for each child in turn,
   * the child itself when it is a solid, then the solids below it.
   */
  ghost function SolidsBelow(n: Node, nodes: set<Node>, d: nat): seq<Node>
    requires Tree(n, nodes, d)
    reads nodes
    decreases d, 0
  {
    if d == 0 then [] else SolidsOf(n.children, nodes, d - 1)
  }

  /** The pre-order solids of the subtrees rooted at `cs`, one after the other. */
  ghost function SolidsOf(cs: seq<Node>, nodes: set<Node>, d: nat): seq<Node>
    requires forall i :: 0 <= i < |cs| ==> Tree(cs[i], nodes, d)
    reads nodes
    decreases d, 1, |cs|
  {
    if cs == [] then []
    else
      var c := cs[|cs| - 1];
      SolidsOf(cs[..|cs| - 1], nodes, d) + (if c.kind.SolidNode? then [c] else []) + SolidsBelow(c, nodes, d)
  }

  /** A tree of height `d` is also one of any larger height. */
  lemma {:induction false} TreeMonotone(n: Node, nodes: set<Node>, d: nat, e: nat)
    requires Tree(n, nodes, d) && d <= e
    ensures Tree(n, nodes, e)
    decreases d
  {
    forall i | 0 <= i < |n.children|
      ensures Tree(n.children[i], nodes, e - 1)
    {
      TreeMonotone(n.children[i], nodes, d - 1, e - 1);
    }
  }

  /** Whatever lies below `n` in a tree of height `e` heads a tree of height `e - 1`. */
  lemma {:induction false} ReachLowers(n: Node, s: Node, nodes: set<Node>, d: nat, e: nat)
    requires Tree(n, nodes, e) && Reaches(n, s, nodes, d)
    ensures e > 0 && Tree(s, nodes, e - 1)
    decreases d
  {
    var i :| 0 <= i < |n.children| && (n.children[i] == s || Reaches(n.children[i], s, nodes, d - 1));
    var c := n.children[i];
    if c != s {
      ReachLowers(c, s, nodes, d - 1, e - 1);
      TreeMonotone(s, nodes, e - 2, e - 1);
    }
  }

  /** In a tree no node lies below itself. */
  lemma {:induction false} RootNotReached(n: Node, nodes: set<Node>, d: nat, e: nat)
    requires Tree(n, nodes, e)
    ensures !Reaches(n, n, nodes, d)
    decreases e
  {
    if Reaches(n, n, nodes, d) {
      ReachLowers(n, n, nodes, d, e);
      RootNotReached(n, nodes, d, e - 1);
      assert false;
    }
  }

  /** `SolidsOf` lists a node exactly when it is a solid among `cs` or below one of them. */
  lemma {:induction false} SolidsOfExactly(cs: seq<Node>, s: Node, nodes: set<Node>, d: nat)
    requires forall i :: 0 <= i < |cs| ==> Tree(cs[i], nodes, d)
    ensures s in SolidsOf(cs, nodes, d) <==>
      s.kind.SolidNode? && exists i :: 0 <= i < |cs| && (cs[i] == s || Reaches(cs[i], s, nodes, d))
    decreases d, 1, |cs|
  {
    if cs != [] {
      var init, c := cs[..|cs| - 1], cs[|cs| - 1];
      SolidsOfExactly(init, s, nodes, d);
      SolidsBelowExactly(c, s, nodes, d);
      if s.kind.SolidNode? && exists i :: 0 <= i < |cs| && (cs[i] == s || Reaches(cs[i], s, nodes, d)) {
        var i :| 0 <= i < |cs| && (cs[i] == s || Reaches(cs[i], s, nodes, d));
        if i < |cs| - 1 {
          assert init[i] == cs[i];
        }
      }
    }
  }

  /**
   * `SolidsBelow` lists exactly the solids that lie below `n`: every one of
   * them, and nothing that is not a solid or not below `n`.
   */
  lemma {:induction false} SolidsBelowExactly(n: Node, s: Node, nodes: set<Node>, d: nat)
    requires Tree(n, nodes, d)
    ensures s in SolidsBelow(n, nodes, d) <==> s.kind.SolidNode? && Reaches(n, s, nodes, d)
    decreases d, 0
  {
    if d > 0 {
      SolidsOfExactly(n.children, s, nodes, d - 1);
    }
  }

  /**
   * A child of `n` is listed when it is a solid, and so is every solid
   * listed below it: what the traversal draws for one child is drawn for `n`.
   */
  lemma ChildSolidsListed(n: Node, i: nat, nodes: set<Node>, d: nat)
    requires Tree(n, nodes, d) && i < |n.children|
    ensures d > 0
    ensures n.children[i].kind.SolidNode? ==> n.children[i] in SolidsBelow(n, nodes, d)
    ensures forall s :: s in SolidsBelow(n.children[i], nodes, d - 1) ==> s in SolidsBelow(n, nodes, d)
  {
    var c := n.children[i];
    assert n.children[i] == c;
    SolidsBelowExactly(n, c, nodes, d);
    forall s | s in SolidsBelow(c, nodes, d - 1)
      ensures s in SolidsBelow(n, nodes, d)
    {
      SolidsBelowExactly(c, s, nodes, d - 1);
      assert Reaches(n.children[i], s, nodes, d - 1);
      SolidsBelowExactly(n, s, nodes, d);
    }
  }

  /** Concatenation regroups freely; stated once so that callers need not compare elements. */
  lemma AppendRegroup<T>(a: seq<T>, b: seq<T>, c: seq<T>)
    ensures a + (b + c) == (a + b) + c
  {
  }

  /** Every solid listed below `n` is one of the scene's nodes. */
  lemma SolidsInScene(n: Node, nodes: set<Node>, d: nat)
    requires Tree(n, nodes, d)
    ensures forall s :: s in SolidsBelow(n, nodes, d) ==> s in nodes
  {
    forall s | s in SolidsBelow(n, nodes, d)
      ensures s in nodes
    {
      SolidsBelowExactly(n, s, nodes, d);
      ReachLowers(n, s, nodes, d, d);
    }
  }

  /** So the node the traversal starts from is never among the solids it lists. */
  lemma RootNotListed(n: Node, nodes: set<Node>, d: nat)
    requires Tree(n, nodes, d)
    ensures n !in SolidsBelow(n, nodes, d)
  {
    SolidsBelowExactly(n, n, nodes, d);
    RootNotReached(n, nodes, d, d);
  }

  /** Two nodes that are each other's parent reach no root, whatever the bound. */
  lemma {:induction false} CycleHasNoRoot(a: Node, b: Node, nodes: set<Node>, k: nat)
    requires a.parent == b && b.parent == a
    ensures !RootWithin(a, nodes, k)
    decreases k
  {
    if k >= 2 && a in nodes && b in nodes {
      CycleHasNoRoot(a, b, nodes, k - 2);
    }
  }

  /**
   * `addChild` does not prevent cycles: `a.addChild(b)` then `b.addChild(a)`
   * both succeed, since `a` has no parent when the second call is made.
   */
  method AddChildAllowsCycle() returns (a: Node, b: Node)
    ensures a.parent == b && b.parent == a
  {
    a := new Node.Default();
    b := new Node.Default();
    var first := a.AddChild(b);
    var second := b.AddChild(a);
  }
}
