/** The splay tree schedule queue: nodes with parent pointers, rewired in place.  Keys are the handles
    by which the tree compares events. */
module SplayTrees {

  class Node {
    var left: Node?
    var right: Node?
    var parent: Node?
    const data: int

    constructor (data: int)
      ensures this.data == data && left == null && right == null && parent == null
    {
      this.data := data;
      left, right, parent := null, null, null;
    }
  }

  // ------------------------------------------------------------------------------------------
  // Shapes
  // ------------------------------------------------------------------------------------------

  /** The shape that the pointers of a tree describe. */
  datatype Tree = Leaf | Fork(left: Tree, node: Node, right: Tree)

  function Root(t: Tree): Node? {
    if t.Leaf? then null else t.node
  }

  function InOrder(t: Tree): seq<Node> {
    if t.Leaf? then [] else InOrder(t.left) + [t.node] + InOrder(t.right)
  }

  function Nodes(t: Tree): set<Node> {
    if t.Leaf? then {} else Nodes(t.left) + {t.node} + Nodes(t.right)
  }

  /** No node occurs twice. */
  predicate Separate(t: Tree) {
    t.Leaf? ||
    (t.node !in Nodes(t.left) && t.node !in Nodes(t.right) && Nodes(t.left) !! Nodes(t.right)
     && Separate(t.left) && Separate(t.right))
  }

  /** The pointers of a node, and those of many. */
  datatype Pointers = Pointers(left: Node?, right: Node?, parent: Node?)

  type Heap = map<Node, Pointers>

  ghost function Now(nodes: set<Node>): (h: Heap)
    reads nodes
    ensures h.Keys == nodes
  {
    map x | x in nodes :: Pointers(x.left, x.right, x.parent)
  }

  /** The pointers of the nodes of t say that it has this shape and that its root hangs under p. */
  predicate Linked(h: Heap, t: Tree, p: Node?) {
    t.Leaf? ||
    (t.node in h && h[t.node] == Pointers(Root(t.left), Root(t.right), p)
     && Linked(h, t.left, t.node) && Linked(h, t.right, t.node))
  }

  lemma {:induction false} LinkedElsewhere(h: Heap, h': Heap, t: Tree, p: Node?)
    requires Linked(h, t, p) && forall x :: x in Nodes(t) ==> x in h && x in h' && h'[x] == h[x]
    ensures Linked(h', t, p)
  {
    if t.Fork? {
      LinkedElsewhere(h, h', t.left, t.node);
      LinkedElsewhere(h, h', t.right, t.node);
    }
  }

  lemma {:induction false} LinkedIsHere(h: Heap, t: Tree, p: Node?)
    requires Linked(h, t, p)
    ensures Nodes(t) <= h.Keys
  {
    if t.Fork? {
      LinkedIsHere(h, t.left, t.node);
      LinkedIsHere(h, t.right, t.node);
    }
  }

  /** What surrounds a subtree: the way from it up to the root. */
  datatype Path = Top | InLeft(up: Path, node: Node, right: Tree) | InRight(up: Path, node: Node, left: Tree)

  function Plug(p: Path, t: Tree): Tree {
    match p
    case Top => t
    case InLeft(up, n, r) => Plug(up, Fork(t, n, r))
    case InRight(up, n, l) => Plug(up, Fork(l, n, t))
  }

  function Above(p: Path): Node? {
    if p.Top? then null else p.node
  }

  /** The subtree that hangs off the first node of the path. */
  function Beside(p: Path): Tree {
    match p
    case Top => Leaf
    case InLeft(_, _, r) => r
    case InRight(_, _, l) => l
  }

  function Depth(p: Path): nat {
    if p.Top? then 0 else 1 + Depth(p.up)
  }

  function PathNodes(p: Path): set<Node> {
    if p.Top? then {} else PathNodes(p.up) + {p.node} + Nodes(Beside(p))
  }

  predicate PathSeparate(p: Path) {
    p.Top? ||
    (p.node !in Nodes(Beside(p)) && p.node !in PathNodes(p.up) && Nodes(Beside(p)) !! PathNodes(p.up)
     && Separate(Beside(p)) && PathSeparate(p.up))
  }

  /** The same for the nodes on the way up and what hangs off it; `hole` is the subtree's root. */
  predicate LinkedPath(h: Heap, p: Path, hole: Node?) {
    p.Top? ||
    (p.node in h
     && h[p.node] == (if p.InLeft? then Pointers(hole, Root(p.right), Above(p.up)) else Pointers(Root(p.left), hole, Above(p.up)))
     && Linked(h, Beside(p), p.node) && LinkedPath(h, p.up, p.node))
  }

  lemma {:induction false} LinkedPathElsewhere(h: Heap, h': Heap, p: Path, hole: Node?)
    requires LinkedPath(h, p, hole) && forall x :: x in PathNodes(p) ==> x in h && x in h' && h'[x] == h[x]
    ensures LinkedPath(h', p, hole)
    decreases p
  {
    if !p.Top? {
      LinkedElsewhere(h, h', Beside(p), p.node);
      LinkedPathElsewhere(h, h', p.up, p.node);
    }
  }

  /** The nodes before and after the subtree. */
  function Before(p: Path): seq<Node> {
    match p
    case Top => []
    case InLeft(up, n, r) => Before(up)
    case InRight(up, n, l) => Before(up) + InOrder(l) + [n]
  }

  function After(p: Path): seq<Node> {
    match p
    case Top => []
    case InLeft(up, n, r) => [n] + InOrder(r) + After(up)
    case InRight(up, n, l) => After(up)
  }

  lemma Regroup(a: seq<Node>, b: seq<Node>, c: seq<Node>, d: seq<Node>, e: seq<Node>)
    ensures a + (b + c + d) + e == (a + b + c) + d + e == a + b + (c + d + e)
  {
  }

  lemma Middle(a: seq<Node>, b: seq<Node>, c: seq<Node>, d: seq<Node>, e: seq<Node>)
    ensures a + (b + c + d) + e == (a + b) + c + (d + e)
  {
  }

  lemma {:induction false} PlugInOrder(p: Path, t: Tree)
    ensures InOrder(Plug(p, t)) == Before(p) + InOrder(t) + After(p)
    decreases p
  {
    match p
    case Top =>
    case InLeft(up, n, r) =>
      PlugInOrder(up, Fork(t, n, r));
      Regroup(Before(up), InOrder(t), [n], InOrder(r), After(up));
    case InRight(up, n, l) =>
      PlugInOrder(up, Fork(l, n, t));
      Regroup(Before(up), InOrder(l), [n], InOrder(t), After(up));
  }

  lemma {:induction false} PlugSeparate(p: Path, t: Tree)
    ensures Nodes(Plug(p, t)) == PathNodes(p) + Nodes(t)
    ensures Separate(Plug(p, t)) <==> Separate(t) && PathSeparate(p) && Nodes(t) !! PathNodes(p)
    decreases p
  {
    match p
    case Top =>
    case InLeft(up, n, r) => PlugSeparate(up, Fork(t, n, r));
    case InRight(up, n, l) => PlugSeparate(up, Fork(l, n, t));
  }

  lemma {:induction false} PlugLinked(h: Heap, p: Path, t: Tree)
    ensures Linked(h, Plug(p, t), null) <==> LinkedPath(h, p, Root(t)) && Linked(h, t, Above(p))
    decreases p
  {
    match p
    case Top =>
    case InLeft(up, n, r) => PlugLinked(h, up, Fork(t, n, r));
    case InRight(up, n, l) => PlugLinked(h, up, Fork(l, n, t));
  }

  lemma {:induction false} NodesAreInOrder(t: Tree)
    ensures forall x :: x in Nodes(t) <==> x in InOrder(t)
  {
    if t.Fork? {
      NodesAreInOrder(t.left);
      NodesAreInOrder(t.right);
    }
  }

  lemma {:induction false} PathIsInTree(p: Path)
    ensures Depth(p) <= |Before(p)| + |After(p)|
    decreases p
  {
    if !p.Top? {
      PathIsInTree(p.up);
    }
  }

  lemma {:induction false} RootOfPlug(p: Path, t: Tree)
    ensures p.Top? ==> Root(Plug(p, t)) == Root(t)
    ensures !p.Top? ==> Root(Plug(p, t)) in PathNodes(p)
    decreases p
  {
    match p
    case Top =>
    case InLeft(up, n, r) => RootOfPlug(up, Fork(t, n, r));
    case InRight(up, n, l) => RootOfPlug(up, Fork(l, n, t));
  }

  /** What a linked tree's pointers say at a node deep inside it. */
  lemma Here(h: Heap, p: Path, t: Tree)
    requires Separate(Plug(p, t)) && Linked(h, Plug(p, t), null)
    ensures Nodes(Plug(p, t)) == PathNodes(p) + Nodes(t) && Nodes(t) !! PathNodes(p)
    ensures Separate(t) && PathSeparate(p) && LinkedPath(h, p, Root(t)) && Linked(h, t, Above(p))
    ensures t.Fork? ==> (Root(Plug(p, t)) == t.node <==> p.Top?)
  {
    PlugSeparate(p, t);
    PlugLinked(h, p, t);
    RootOfPlug(p, t);
  }

  // ------------------------------------------------------------------------------------------
  // Rotations
  // ------------------------------------------------------------------------------------------

  /** The shape x over y with y to the right, and the shape after rotating x down to the left. */
  function High(p: Path, l: Tree, x: Node, m: Tree, y: Node, r: Tree): Tree { Plug(p, Fork(l, x, Fork(m, y, r))) }
  function Low(p: Path, l: Tree, x: Node, m: Tree, y: Node, r: Tree): Tree { Plug(p, Fork(Fork(l, x, m), y, r)) }

  lemma RotationKeepsOrder(p: Path, l: Tree, x: Node, m: Tree, y: Node, r: Tree)
    ensures InOrder(High(p, l, x, m, y, r)) == InOrder(Low(p, l, x, m, y, r))
    ensures Nodes(High(p, l, x, m, y, r)) == Nodes(Low(p, l, x, m, y, r))
    ensures Separate(High(p, l, x, m, y, r)) <==> Separate(Low(p, l, x, m, y, r))
  {
    var t, t' := Fork(l, x, Fork(m, y, r)), Fork(Fork(l, x, m), y, r);
    PlugInOrder(p, t);
    PlugInOrder(p, t');
    PlugSeparate(p, t);
    PlugSeparate(p, t');
    RotatedSameNodes(l, x, m, y, r);
    hide InOrder, Nodes, Separate, Plug;
  }

  lemma RotatedSameNodes(l: Tree, x: Node, m: Tree, y: Node, r: Tree)
    ensures var t, t' := Fork(l, x, Fork(m, y, r)), Fork(Fork(l, x, m), y, r);
            InOrder(t) == InOrder(t') && Nodes(t) == Nodes(t') && (Separate(t) <==> Separate(t'))
  {
    Reassociate(InOrder(l), [x], InOrder(m), [y], InOrder(r));
    assert InOrder(Fork(m, y, r)) == InOrder(m) + [y] + InOrder(r) && InOrder(Fork(l, x, m)) == InOrder(l) + [x] + InOrder(m);
  }

  lemma Reassociate(a: seq<Node>, b: seq<Node>, c: seq<Node>, d: seq<Node>, e: seq<Node>)
    ensures a + b + (c + d + e) == (a + b + c) + d + e
  {
  }

  function SetParent(h: Heap, x: Node?, p: Node?): Heap {
    if x != null && x in h then h[x := h[x].(parent := p)] else h
  }

  /** In the parent, the child `from` gives way to `to`. */
  function SetChild(h: Heap, x: Node?, from: Node, to: Node): Heap {
    if x != null && x in h then
      h[x := if h[x].left == from then h[x].(left := to) else h[x].(right := to)]
    else h
  }

  /** `to` takes the place of `from` below p. */
  function Replaced(h: Heap, from: Node, to: Node, p: Node?): Heap {
    SetChild(SetParent(h, to, p), p, from, to)
  }

  /** The pointers after rotating x down to the left, below y. */
  function RotatedLeft(h: Heap, x: Node, y: Node, m: Node?, p: Node?): Heap
    requires x in h && y in h
  {
    Replaced(SetParent(h[x := h[x].(right := m, parent := y)][y := h[y].(left := x)], m, x), x, y, p)
  }

  /** The pointers after rotating y down to the right, below x. */
  function RotatedRight(h: Heap, y: Node, x: Node, m: Node?, p: Node?): Heap
    requires x in h && y in h
  {
    Replaced(SetParent(h[y := h[y].(left := m, parent := x)][x := h[x].(right := y)], m, y), y, x, p)
  }

  lemma RotateLeftLinks(h: Heap, p: Path, l: Tree, x: Node, m: Tree, y: Node, r: Tree)
    requires Separate(High(p, l, x, m, y, r)) && Linked(h, High(p, l, x, m, y, r), null)
    requires h.Keys == Nodes(High(p, l, x, m, y, r))
    ensures x in h && y in h && Linked(RotatedLeft(h, x, y, Root(m), Above(p)), Low(p, l, x, m, y, r), null)
    ensures Root(Low(p, l, x, m, y, r)) == if p.Top? then y else Root(High(p, l, x, m, y, r))
  {
    hide Plug, PathNodes, Separate;
    var t, t' := Fork(l, x, Fork(m, y, r)), Fork(Fork(l, x, m), y, r);
    Here(h, p, t);
    var h' := RotatedLeft(h, x, y, Root(m), Above(p));
    RotateLeftBelow(h, p, l, x, m, y, r);
    PathAfter(h, h', p, x, y);
    PlugLinked(h', p, t');
    RootOfPlug(p, t');
    if !p.Top? {
      RootsAgree(p, t, t');
    }
  }

  lemma RotateLeftBelow(h: Heap, p: Path, l: Tree, x: Node, m: Tree, y: Node, r: Tree)
    requires var t := Fork(l, x, Fork(m, y, r));
             Separate(t) && Linked(h, t, Above(p)) && Nodes(t) !! PathNodes(p) && (!p.Top? ==> p.node in h)
    ensures x in h && y in h && Linked(RotatedLeft(h, x, y, Root(m), Above(p)), Fork(Fork(l, x, m), y, r), Above(p))
    ensures var h' := RotatedLeft(h, x, y, Root(m), Above(p));
            forall z :: z in PathNodes(p) && z in h && z != Above(p) ==> z in h' && h'[z] == h[z]
    ensures var h' := RotatedLeft(h, x, y, Root(m), Above(p));
            p.Top? || (p.node in h' && h'[p.node] == if h[p.node].left == x then h[p.node].(left := y) else h[p.node].(right := y))
  {
    assert Linked(h, Fork(m, y, r), x) && Separate(Fork(m, y, r));
    assert Linked(h, m, y) && Separate(m);
    var h' := RotatedLeft(h, x, y, Root(m), Above(p));
    LinkedIsHere(h, Fork(l, x, Fork(m, y, r)), Above(p));
    LinkedElsewhere(h, h', l, x);
    LinkedElsewhere(h, h', r, y);
    if m.Fork? {
      LinkedElsewhere(h, h', m.left, m.node);
      LinkedElsewhere(h, h', m.right, m.node);
    }
    assert Linked(h', m, x);
    assert Linked(h', Fork(l, x, m), y);
  }

  lemma RotateRightLinks(h: Heap, p: Path, l: Tree, x: Node, m: Tree, y: Node, r: Tree)
    requires Separate(Low(p, l, x, m, y, r)) && Linked(h, Low(p, l, x, m, y, r), null)
    requires h.Keys == Nodes(Low(p, l, x, m, y, r))
    ensures x in h && y in h && Linked(RotatedRight(h, y, x, Root(m), Above(p)), High(p, l, x, m, y, r), null)
    ensures Root(High(p, l, x, m, y, r)) == if p.Top? then x else Root(Low(p, l, x, m, y, r))
  {
    hide Plug, PathNodes, Separate;
    var t, t' := Fork(Fork(l, x, m), y, r), Fork(l, x, Fork(m, y, r));
    Here(h, p, t);
    var h' := RotatedRight(h, y, x, Root(m), Above(p));
    RotateRightBelow(h, p, l, x, m, y, r);
    PathAfter(h, h', p, y, x);
    PlugLinked(h', p, t');
    RootOfPlug(p, t');
    if !p.Top? {
      RootsAgree(p, t, t');
    }
  }

  lemma RotateRightBelow(h: Heap, p: Path, l: Tree, x: Node, m: Tree, y: Node, r: Tree)
    requires var t := Fork(Fork(l, x, m), y, r);
             Separate(t) && Linked(h, t, Above(p)) && Nodes(t) !! PathNodes(p) && (!p.Top? ==> p.node in h)
    ensures x in h && y in h && Linked(RotatedRight(h, y, x, Root(m), Above(p)), Fork(l, x, Fork(m, y, r)), Above(p))
    ensures var h' := RotatedRight(h, y, x, Root(m), Above(p));
            forall z :: z in PathNodes(p) && z in h && z != Above(p) ==> z in h' && h'[z] == h[z]
    ensures var h' := RotatedRight(h, y, x, Root(m), Above(p));
            p.Top? || (p.node in h' && h'[p.node] == if h[p.node].left == y then h[p.node].(left := x) else h[p.node].(right := x))
  {
    assert Linked(h, Fork(l, x, m), y) && Separate(Fork(l, x, m));
    assert Linked(h, m, x) && Separate(m);
    var h' := RotatedRight(h, y, x, Root(m), Above(p));
    LinkedIsHere(h, Fork(Fork(l, x, m), y, r), Above(p));
    LinkedElsewhere(h, h', l, x);
    LinkedElsewhere(h, h', r, y);
    if m.Fork? {
      LinkedElsewhere(h, h', m.left, m.node);
      LinkedElsewhere(h, h', m.right, m.node);
    }
    assert Linked(h', m, y);
    assert Linked(h', Fork(m, y, r), x);
  }

  /** The way up, once its first node has a new child. */
  lemma PathAfter(h: Heap, h': Heap, p: Path, x: Node, y: Node)
    requires LinkedPath(h, p, x) && PathSeparate(p) && PathNodes(p) <= h.Keys && x !in PathNodes(p)
    requires forall z :: z in PathNodes(p) && z in h && z != Above(p) ==> z in h' && h'[z] == h[z]
    requires p.Top? || (p.node in h' && h'[p.node] == if h[p.node].left == x then h[p.node].(left := y) else h[p.node].(right := y))
    ensures LinkedPath(h', p, y)
  {
    if !p.Top? {
      LinkedElsewhere(h, h', Beside(p), p.node);
      LinkedPathElsewhere(h, h', p.up, p.node);
      RootIsInside(Beside(p));
    }
  }

  lemma RootIsInside(t: Tree)
    ensures t.Fork? ==> Root(t) in Nodes(t)
  {
  }

  lemma {:induction false} RootsAgree(p: Path, t: Tree, t': Tree)
    requires !p.Top?
    ensures Root(Plug(p, t)) == Root(Plug(p, t'))
    decreases p
  {
    if !p.up.Top? {
      match p
      case InLeft(up, n, r) => RootsAgree(up, Fork(t, n, r), Fork(t', n, r));
      case InRight(up, n, l) => RootsAgree(up, Fork(l, n, t), Fork(l, n, t'));
    }
  }

  // ------------------------------------------------------------------------------------------
  // The tree
  // ------------------------------------------------------------------------------------------

  /** The pointers of a node in the tree. */
  lemma AtNode(h: Heap, p: Path, l: Tree, x: Node, r: Tree)
    requires var t := Plug(p, Fork(l, x, r)); Separate(t) && Linked(h, t, null)
    ensures x in h && h[x] == Pointers(Root(l), Root(r), Above(p)) && x in Nodes(Plug(p, Fork(l, x, r)))
    ensures Root(Plug(p, Fork(l, x, r))) == x <==> p.Top?
    ensures Nodes(Plug(p, Fork(l, x, r))) <= h.Keys
  {
    Here(h, p, Fork(l, x, r));
    LinkedIsHere(h, Plug(p, Fork(l, x, r)), null);
  }

  /** Its parent, its children and their children are different nodes of the tree. */
  lemma AtChildren(h: Heap, p: Path, l: Tree, x: Node, r: Tree)
    requires var t := Plug(p, Fork(l, x, r)); Separate(t) && Linked(h, t, null)
    ensures var nodes := Nodes(Plug(p, Fork(l, x, r)));
            && x in nodes && (!p.Top? ==> p.node in nodes && p.node != x)
            && (r.Fork? ==>
                  && r.node in nodes && r.node in h && h[r.node] == Pointers(Root(r.left), Root(r.right), x)
                  && r.node != x && r.node != Above(p)
                  && (r.left.Fork? ==> r.left.node in nodes && r.left.node != x && r.left.node != r.node && r.left.node != Above(p)))
            && (l.Fork? ==>
                  && l.node in nodes && l.node in h && h[l.node] == Pointers(Root(l.left), Root(l.right), x)
                  && l.node != x && l.node != Above(p)
                  && (l.right.Fork? ==> l.right.node in nodes && l.right.node != x && l.right.node != l.node && l.right.node != Above(p)))
  {
    Here(h, p, Fork(l, x, r));
    assert Separate(l) && Separate(r) && Linked(h, l, x) && Linked(h, r, x);
    if r.Fork? {
      RootIsInside(r.left);
    }
    if l.Fork? {
      RootIsInside(l.right);
    }
  }

  /** Its parent points back to it, from the side that the path says. */
  lemma AtParent(h: Heap, p: Path, l: Tree, x: Node, r: Tree)
    requires var t := Plug(p, Fork(l, x, r)); Separate(t) && Linked(h, t, null)
    ensures x in h && h[x].parent == Above(p)
    ensures !p.Top? ==> p.node in h && p.node in Nodes(Plug(p, Fork(l, x, r))) && (h[p.node].left == x <==> p.InLeft?)
    ensures !p.Top? ==> h[p.node].parent == Above(p.up)
    ensures !p.Top? ==> (p.node == Root(Plug(p, Fork(l, x, r))) <==> p.up.Top?)
  {
    Here(h, p, Fork(l, x, r));
    if !p.Top? {
      RootIsInside(Beside(p));
      var t := if p.InLeft? then Fork(Fork(l, x, r), p.node, p.right) else Fork(p.left, p.node, Fork(l, x, r));
      assert Plug(p, Fork(l, x, r)) == Plug(p.up, t);
      Here(h, p.up, t);
    }
  }

  lemma AtGrandParent(h: Heap, p: Path, l: Tree, x: Node, r: Tree)
    requires var t := Plug(p, Fork(l, x, r)); Separate(t) && Linked(h, t, null)
    requires !p.Top? && !p.up.Top?
    ensures p.up.node in h && p.up.node in Nodes(Plug(p, Fork(l, x, r))) && (h[p.up.node].left == p.node <==> p.up.InLeft?)
  {
    if p.InLeft? {
      AtParent(h, p.up, Fork(l, x, r), p.node, p.right);
    } else {
      AtParent(h, p.up, p.left, p.node, Fork(l, x, r));
    }
  }

  lemma DepthIsBounded(p: Path, t: Tree)
    ensures Depth(p) + |InOrder(t)| <= |InOrder(Plug(p, t))|
    ensures t.Fork? ==> |InOrder(t)| > 0
  {
    PlugInOrder(p, t);
    PathIsInTree(p);
  }

  // ------------------------------------------------------------------------------------------
  // Keys
  // ------------------------------------------------------------------------------------------

  datatype Key = NoKey | Lowest(key: int)

  function KeysOf(nodes: seq<Node>): (r: seq<int>)
    ensures |r| == |nodes| && forall i :: 0 <= i < |r| ==> r[i] == nodes[i].data
  {
    seq(|nodes|, i requires 0 <= i < |nodes| => nodes[i].data)
  }

  predicate Ordered(s: seq<int>) {
    forall i, j :: 0 <= i < j < |s| ==> s[i] <= s[j]
  }

  /** A key goes before the first key that is not less. */
  function Inserted(s: seq<int>, key: int): seq<int> {
    if s == [] || key <= s[0] then [key] + s else [s[0]] + Inserted(s[1..], key)
  }

  lemma SmallerInside(t: Tree)
    ensures t.Fork? ==> |InOrder(t.left)| + |InOrder(t.right)| < |InOrder(t)|
  {
  }

  lemma InOrderOfFork(l: Tree, x: Node, r: Tree)
    ensures InOrder(Fork(l, x, r)) == InOrder(l) + [x] + InOrder(r)
    ensures l.Leaf? ==> InOrder(l) == []
  {
  }

  /** The pointers when newNode fills the empty place at the end of path p. */
  function Filled(h: Heap, p: Path, newNode: Node): Heap
    requires !p.Top? && p.node in h
  {
    h[p.node := if p.InLeft? then h[p.node].(left := newNode) else h[p.node].(right := newNode)]
     [newNode := Pointers(null, null, p.node)]
  }

  lemma AttachLinks(h: Heap, p: Path, newNode: Node)
    requires var t := Plug(p, Leaf); Separate(t) && Linked(h, t, null) && h.Keys == Nodes(t)
    requires !p.Top? && newNode !in h
    ensures p.node in h && (p.InLeft? ==> h[p.node].left == null) && (p.InRight? ==> h[p.node].right == null)
    ensures var t' := Plug(p, Fork(Leaf, newNode, Leaf));
            && Separate(t') && Linked(Filled(h, p, newNode), t', null) && Root(t') == Root(Plug(p, Leaf))
            && Nodes(t') == h.Keys + {newNode} && InOrder(t') == Before(p) + [newNode] + After(p)
    ensures InOrder(Plug(p, Leaf)) == Before(p) + After(p)
  {
    Here(h, p, Leaf);
    FillSeparate(p, newNode);
    FillLinked(h, p, newNode);
    hide Plug, Linked, LinkedPath, Separate, PathSeparate, Nodes, PathNodes, InOrder;
    PlugLinked(Filled(h, p, newNode), p, Fork(Leaf, newNode, Leaf));
    RootsAgree(p, Leaf, Fork(Leaf, newNode, Leaf));
  }

  lemma FillSeparate(p: Path, x: Node)
    requires Separate(Plug(p, Leaf)) && x !in Nodes(Plug(p, Leaf))
    ensures var t' := Plug(p, Fork(Leaf, x, Leaf));
            Separate(t') && Nodes(t') == Nodes(Plug(p, Leaf)) + {x} && InOrder(t') == Before(p) + [x] + After(p)
    ensures InOrder(Plug(p, Leaf)) == Before(p) + After(p)
  {
    var t' := Fork(Leaf, x, Leaf);
    SingleNode(x);
    hide Plug, Separate, PathSeparate, Nodes, PathNodes, InOrder;
    PlugSeparate(p, Leaf);
    PlugSeparate(p, t');
    PlugInOrder(p, t');
    EmptyPlace(p);
  }

  lemma SingleNode(x: Node)
    ensures var t := Fork(Leaf, x, Leaf); InOrder(t) == [x] && Nodes(t) == {x} && Separate(t)
    ensures InOrder(Leaf) == [] && Nodes(Leaf) == {}
  {
    assert Nodes(Leaf) == {} && InOrder(Leaf) == [];
  }

  lemma SingleLinked(x: Node)
    ensures Linked(map[x := Pointers(null, null, null)], Fork(Leaf, x, Leaf), null)
  {
  }

  lemma EmptyPlace(p: Path)
    ensures InOrder(Plug(p, Leaf)) == Before(p) + After(p)
  {
    PlugInOrder(p, Leaf);
    assert Before(p) + [] + After(p) == Before(p) + After(p);
  }

  lemma FillLinked(h: Heap, p: Path, x: Node)
    requires LinkedPath(h, p, null) && PathSeparate(p) && !p.Top? && x !in h && h.Keys == PathNodes(p)
    ensures LinkedPath(Filled(h, p, x), p, x) && Linked(Filled(h, p, x), Fork(Leaf, x, Leaf), p.node)
    ensures p.node in h && (p.InLeft? ==> h[p.node].left == null) && (p.InRight? ==> h[p.node].right == null)
  {
    var h' := Filled(h, p, x);
    LinkedElsewhere(h, h', Beside(p), p.node);
    LinkedPathElsewhere(h, h', p.up, p.node);
  }

  lemma {:induction false} LeftEnd(t: Tree) returns (p: Path, r: Tree)
    requires t.Fork?
    ensures InOrder(t) != [] && t == Plug(p, Fork(Leaf, InOrder(t)[0], r))
    ensures Before(p) == [] && After(InLeft(p, InOrder(t)[0], r)) == InOrder(t)
  {
    p, r := LeftEndAt(Top, t);
    PlugInOrder(p, Fork(Leaf, InOrder(t)[0], r));
    PlugInOrder(InLeft(p, InOrder(t)[0], r), Leaf);
    assert [] + InOrder(Leaf) + After(InLeft(p, InOrder(t)[0], r)) == After(InLeft(p, InOrder(t)[0], r));
  }

  lemma {:induction false} LeftEndAt(q: Path, t: Tree) returns (p: Path, r: Tree)
    requires t.Fork? && Before(q) == []
    ensures InOrder(t) != [] && Plug(q, t) == Plug(p, Fork(Leaf, InOrder(t)[0], r)) && Before(p) == []
    decreases t
  {
    if t.left.Leaf? {
      p, r := q, t.right;
    } else {
      p, r := LeftEndAt(InLeft(q, t.node, t.right), t.left);
    }
  }

  lemma LowestIsHere(h: Heap, p: Path, x: Node, r: Tree)
    requires var t := Plug(p, Fork(Leaf, x, r)); Separate(t) && Linked(h, t, null)
    ensures x in Nodes(Plug(p, Fork(Leaf, x, r)))
  {
    Here(h, p, Fork(Leaf, x, r));
  }

  lemma NotEmpty(t: Tree)
    ensures t.Fork? <==> InOrder(t) != []
  {
  }

  lemma OrderedAt(p: Path, l: Tree, x: Node, r: Tree)
    requires Ordered(KeysOf(InOrder(Plug(p, Fork(l, x, r)))))
    ensures forall y :: y in InOrder(l) ==> y.data <= x.data
    ensures forall y :: y in InOrder(r) ==> x.data <= y.data
  {
    PlugInOrder(p, Fork(l, x, r));
    InOrderOfFork(l, x, r);
    var s := InOrder(Plug(p, Fork(l, x, r)));
    var a, b := |Before(p)|, |InOrder(l)|;
    hide InOrder, Plug;
    assert s == Before(p) + (InOrder(l) + [x] + InOrder(r)) + After(p);
    forall i | 0 <= i < |InOrder(l)|
      ensures InOrder(l)[i].data <= x.data
    {
      assert s[a + i] == InOrder(l)[i] && s[a + b] == x;
      assert KeysOf(s)[a + i] <= KeysOf(s)[a + b];
    }
    forall i | 0 <= i < |InOrder(r)|
      ensures x.data <= InOrder(r)[i].data
    {
      assert s[a + b] == x && s[a + b + 1 + i] == InOrder(r)[i];
      assert KeysOf(s)[a + b] <= KeysOf(s)[a + b + 1 + i];
    }
  }

  /** The new node's place is right for its key. */
  lemma InsertedBetween(s: seq<Node>, a: seq<Node>, b: seq<Node>, x: Node)
    requires s == a + b && Ordered(KeysOf(s))
    requires forall y :: y in a ==> y.data < x.data
    requires b != [] ==> x.data <= b[0].data
    ensures KeysOf(a + [x] + b) == Inserted(KeysOf(s), x.data) && Ordered(KeysOf(a + [x] + b))
  {
    InsertedAfter(KeysOf(a), KeysOf(b), x.data);
    assert KeysOf(s) == KeysOf(a) + KeysOf(b) && KeysOf(a + [x] + b) == KeysOf(a) + [x.data] + KeysOf(b);
    assert forall k :: k in KeysOf(a) ==> k < x.data;
    OrderedBetween(KeysOf(a), x.data, KeysOf(b));
  }

  lemma OrderedBetween(a: seq<int>, key: int, b: seq<int>)
    requires Ordered(a + b) && (forall k :: k in a ==> k < key) && (b != [] ==> key <= b[0])
    ensures Ordered(a + [key] + b)
  {
    var s, t := a + b, a + [key] + b;
    forall i, j | 0 <= i < j < |t|
      ensures t[i] <= t[j]
    {
      var k := |a|;
      assert i < k ==> a[i] in a;
      assert i != k && j != k ==> s[if i < k then i else i - 1] <= s[if j < k then j else j - 1];
      assert j > k ==> s[k] <= s[j - 1];
    }
  }

  lemma {:induction false} InsertedAfter(a: seq<int>, b: seq<int>, key: int)
    requires (forall k :: k in a ==> k < key) && (b != [] ==> key <= b[0])
    ensures Inserted(a + b, key) == a + [key] + b
  {
    if a == [] {
      assert [] + b == b;
    } else {
      assert forall k :: k in a[1..] ==> k in a;
      InsertedAfter(a[1..], b, key);
      assert (a + b)[1..] == a[1..] + b;
      assert a[0] in a;
    }
  }

  /** A key behind the lowest does not get the first place. */
  lemma FirstIsBefore(p: Path, s: seq<Node>, key: int)
    requires s == Before(p) + After(p) && s != [] && s[0].data < key
    requires forall x :: x in After(p) ==> key <= x.data
    ensures Before(p) != [] && Before(p)[0] == s[0]
    ensures After(p) != [] ==> key <= After(p)[0].data
  {
    assert |After(p)| > 0 ==> After(p)[0] in After(p);
    assert |Before(p)| == 0 ==> s == After(p);
  }

  lemma LowestFirst(s: seq<Node>, key: int)
    requires s != [] && Ordered(KeysOf(s)) && key <= s[0].data
    ensures key in KeysOf(s) ==> key == s[0].data
  {
    forall i | 0 <= i < |s| && KeysOf(s)[i] == key
      ensures key == s[0].data
    {
      assert i == 0 || KeysOf(s)[0] <= KeysOf(s)[i];
    }
  }

  /** In an ordered tree, a key is where its comparison with the root's key says. */
  lemma WhichSide(l: seq<Node>, x: Node, r: seq<Node>, key: int)
    requires (forall y :: y in l ==> y.data <= x.data) && (forall y :: y in r ==> x.data <= y.data)
    ensures key in KeysOf(l + [x] + r) && key < x.data ==> key in KeysOf(l)
    ensures key in KeysOf(l + [x] + r) && key > x.data ==> key in KeysOf(r)
  {
    var s := l + [x] + r;
    forall i | 0 <= i < |s| && KeysOf(s)[i] == key
      ensures key < x.data ==> key in KeysOf(l)
      ensures key > x.data ==> key in KeysOf(r)
    {
      if i < |l| {
        assert l[i] in l && KeysOf(l)[i] == key;
      } else if i > |l| {
        assert r[i - |l| - 1] in r && KeysOf(r)[i - |l| - 1] == key;
      }
    }
  }

  /** The keys without one of them. */
  lemma WithoutOne(a: seq<Node>, x: Node, b: seq<Node>)
    ensures multiset(KeysOf(a + b)) == multiset(KeysOf(a + [x] + b)) - multiset{x.data}
    ensures Ordered(KeysOf(a + [x] + b)) ==> Ordered(KeysOf(a + b))
  {
    var s, t := KeysOf(a + [x] + b), KeysOf(a + b);
    assert s == KeysOf(a) + [x.data] + KeysOf(b) && t == KeysOf(a) + KeysOf(b);
    SkipOne(KeysOf(a), x.data, KeysOf(b));
  }

  lemma SkipOne(a: seq<int>, k: int, b: seq<int>)
    ensures multiset(a + b) == multiset(a + [k] + b) - multiset{k}
    ensures Ordered(a + [k] + b) ==> Ordered(a + b)
  {
    var s, t := a + [k] + b, a + b;
    assert forall i :: 0 <= i < |t| ==> t[i] == s[if i < |a| then i else i + 1];
  }

  lemma KeyHere(l: seq<Node>, x: Node, r: seq<Node>)
    ensures x.data in KeysOf(l + [x] + r)
  {
    assert KeysOf(l + [x] + r)[|l|] == x.data;
  }

  lemma EmptyTree(t: Tree)
    ensures t.Leaf? ==> InOrder(t) == [] && KeysOf(InOrder(t)) == []
  {
  }

  lemma RootParts(h: Heap, l: Tree, x: Node, r: Tree)
    requires Separate(Fork(l, x, r)) && Linked(h, Fork(l, x, r), null)
    ensures x in h && h[x] == Pointers(Root(l), Root(r), null) && Linked(h, l, x) && Linked(h, r, x)
    ensures Separate(l) && Separate(r) && Nodes(l) !! Nodes(r) && x !in Nodes(l) && x !in Nodes(r)
    ensures Nodes(Fork(l, x, r)) == Nodes(l) + {x} + Nodes(r)
  {
  }

  /** A subtree on its own. */
  lemma DetachLinks(h: Heap, t: Tree, p: Node, other: Tree)
    requires Separate(t) && Linked(h, t, p) && Nodes(t) !! Nodes(other) && Linked(h, other, p)
    ensures Linked(SetParent(h, Root(t), null), t, null) && Linked(SetParent(h, Root(t), null), other, p)
  {
    var h' := SetParent(h, Root(t), null);
    LinkedIsHere(h, t, p);
    LinkedIsHere(h, other, p);
    RootIsInside(t);
    LinkedElsewhere(h, h', other, p);
    if t.Fork? {
      LinkedElsewhere(h, h', t.left, t.node);
      LinkedElsewhere(h, h', t.right, t.node);
    }
  }

  /** The pointers after right has been hung below m. */
  function Joined(h: Heap, m: Node, right: Node): Heap
    requires m in h && right in h
  {
    var h1 := h[m := h[m].(right := right)];
    h1[right := h1[right].(parent := m)]
  }

  lemma JoinLinks(h: Heap, q: Path, ll: Tree, m: Node, r: Tree, p: Node)
    requires var l := Plug(q, Fork(ll, m, Leaf)); Separate(l) && Linked(h, l, null) && Nodes(l) !! Nodes(r)
    requires Separate(r) && Linked(h, r, p) && r.Fork? && After(q) == []
    ensures m in h && r.node in h && m != r.node
    ensures var t := Plug(q, Fork(ll, m, r));
            && Separate(t) && Linked(Joined(h, m, r.node), t, null) && Root(t) == Root(Plug(q, Fork(ll, m, Leaf)))
            && Nodes(t) == Nodes(Plug(q, Fork(ll, m, Leaf))) + Nodes(r)
            && InOrder(t) == InOrder(Plug(q, Fork(ll, m, Leaf))) + InOrder(r)
  {
    var hole := InRight(q, m, ll);
    HoleParts(h, q, ll, m);
    RootIsInside(r);
    LinkedIsHere(h, r, p);
    JoinedOrder(q, ll, m, r);
    JoinedBelow(h, m, r, p);
    hide Plug, Separate, PathSeparate, Nodes, PathNodes, InOrder, Linked, LinkedPath;
    PlugSeparate(hole, r);
    RootsAgree(hole, Leaf, r);
    JoinedPath(h, hole, m, r);
    PlugLinked(Joined(h, m, r.node), hole, r);
  }

  lemma HoleParts(h: Heap, q: Path, ll: Tree, m: Node)
    requires var l := Plug(q, Fork(ll, m, Leaf)); Separate(l) && Linked(h, l, null)
    ensures var hole := InRight(q, m, ll);
            && Plug(hole, Leaf) == Plug(q, Fork(ll, m, Leaf))
            && PathSeparate(hole) && LinkedPath(h, hole, null) && PathNodes(hole) == Nodes(Plug(hole, Leaf)) <= h.Keys
            && m in PathNodes(hole)
  {
    Here(h, InRight(q, m, ll), Leaf);
    LinkedIsHere(h, Plug(q, Fork(ll, m, Leaf)), null);
  }

  lemma JoinedOrder(q: Path, ll: Tree, m: Node, r: Tree)
    requires After(q) == []
    ensures InOrder(Plug(q, Fork(ll, m, r))) == InOrder(Plug(q, Fork(ll, m, Leaf))) + InOrder(r)
    ensures Plug(InRight(q, m, ll), r) == Plug(q, Fork(ll, m, r))
  {
    var hole := InRight(q, m, ll);
    EmptyPlace(hole);
    PlugInOrder(hole, r);
    assert After(hole) == [];
    hide InOrder, Before, After;
    assert Before(hole) + InOrder(r) + [] == Before(hole) + [] + InOrder(r);
  }

  lemma JoinedBelow(h: Heap, m: Node, r: Tree, p: Node)
    requires r.Fork? && Separate(r) && Linked(h, r, p) && m !in Nodes(r) && m in h
    ensures r.node in h && Linked(Joined(h, m, r.node), r, m)
  {
    var h' := Joined(h, m, r.node);
    LinkedIsHere(h, r, p);
    LinkedElsewhere(h, h', r.left, r.node);
    LinkedElsewhere(h, h', r.right, r.node);
  }

  lemma JoinedPath(h: Heap, hole: Path, m: Node, r: Tree)
    requires hole.InRight? && hole.node == m && LinkedPath(h, hole, null) && PathSeparate(hole) && PathNodes(hole) <= h.Keys
    requires r.Fork? && r.node in h && r.node !in PathNodes(hole)
    ensures LinkedPath(Joined(h, m, r.node), hole, r.node)
  {
    var h' := Joined(h, m, r.node);
    LinkedElsewhere(h, h', Beside(hole), m);
    LinkedPathElsewhere(h, h', hole.up, m);
  }

  class SplayTree {
    var root: Node?
    var current: Node?
    var numNodes: nat
    ghost var tree: Tree

    /** The pointers form a binary tree. */
    ghost predicate Shape()
      reads this, Nodes(tree)
    {
      Separate(tree) && Linked(Now(Nodes(tree)), tree, null) && root == Root(tree)
    }

    /** The second half of both rotations: `to` takes the place of `from` at its parent. */
    method Replace(from: Node, to: Node, parent: Node?, ghost nodes: set<Node>)
      requires from in nodes && to in nodes && (parent != null ==> parent in nodes)
      requires from != to && parent != from && parent != to && (from == root <==> parent == null)
      modifies `root, nodes
      ensures Now(nodes) == Replaced(old(Now(nodes)), from, to, parent)
      ensures root == if parent == null then to else old(root)
    {
      if from == root {
        root := to;
        root.parent := null;
      } else {
        to.parent := parent;
        if parent.left == from {
          parent.left := to;
        } else {
          parent.right := to;
        }
      }
    }

    /** The assignments of rotateLeft. */
    method RewireLeft(x: Node, right: Node, left: Node?, parent: Node?, ghost nodes: set<Node>)
      requires x in nodes && right in nodes && (left != null ==> left in nodes) && (parent != null ==> parent in nodes)
      requires x != right && left != x && left != right && parent != x && parent != right && (left != null ==> left != parent)
      requires x.right == right && right.left == left && x.parent == parent && (x == root <==> parent == null)
      modifies `root, nodes
      ensures Now(nodes) == RotatedLeft(old(Now(nodes)), x, right, left, parent)
      ensures root == if parent == null then right else old(root)
    {
      ghost var h := Now(nodes);
      x.parent := right;
      right.left := x;
      x.right := left;
      if left != null {
        left.parent := x;
      }
      assert Now(nodes) == SetParent(h[x := h[x].(right := left, parent := right)][right := h[right].(left := x)], left, x);
      Replace(x, right, parent, nodes);
    }

    /** Rotates x down to the left, if it has a right child. */
    method RotateLeft(x: Node, ghost p: Path, ghost l: Tree, ghost b: Tree) returns (top: Node)
      requires Shape() && tree == Plug(p, Fork(l, x, b))
      modifies `root, `tree, Nodes(tree)
      ensures Shape() && Nodes(tree) == old(Nodes(tree)) && InOrder(tree) == old(InOrder(tree))
      ensures tree == if b.Leaf? then old(tree) else Low(p, l, x, b.left, b.node, b.right)
    {
      hide Linked, Separate, Nodes, PathNodes, Plug, InOrder, LinkedPath;
      ghost var h := Now(Nodes(tree));
      AtNode(h, p, l, x, b);
      var right := x.right;
      if right == null {
        return x;
      }
      AtChildren(h, p, l, x, b);
      RotateLeftLinks(h, p, l, x, b.left, b.node, b.right);
      RotationKeepsOrder(p, l, x, b.left, b.node, b.right);
      RewireLeft(x, right, right.left, x.parent, Nodes(tree));
      tree := Low(p, l, x, b.left, b.node, b.right);
      return right;
    }

    /** The assignments of rotateRight. */
    method RewireRight(x: Node, left: Node, right: Node?, parent: Node?, ghost nodes: set<Node>)
      requires x in nodes && left in nodes && (right != null ==> right in nodes) && (parent != null ==> parent in nodes)
      requires x != left && right != x && right != left && parent != x && parent != left && (right != null ==> right != parent)
      requires x.left == left && left.right == right && x.parent == parent && (x == root <==> parent == null)
      modifies `root, nodes
      ensures Now(nodes) == RotatedRight(old(Now(nodes)), x, left, right, parent)
      ensures root == if parent == null then left else old(root)
    {
      ghost var h := Now(nodes);
      x.parent := left;
      left.right := x;
      x.left := right;
      if right != null {
        right.parent := x;
      }
      assert Now(nodes) == SetParent(h[x := h[x].(left := right, parent := left)][left := h[left].(right := x)], right, x);
      Replace(x, left, parent, nodes);
    }

    /** Rotates x down to the right, if it has a left child. */
    method RotateRight(x: Node, ghost p: Path, ghost b: Tree, ghost r: Tree) returns (top: Node)
      requires Shape() && tree == Plug(p, Fork(b, x, r))
      modifies `root, `tree, Nodes(tree)
      ensures Shape() && Nodes(tree) == old(Nodes(tree)) && InOrder(tree) == old(InOrder(tree))
      ensures tree == if b.Leaf? then old(tree) else High(p, b.left, b.node, b.right, x, r)
    {
      hide Linked, Separate, Nodes, PathNodes, Plug, InOrder, LinkedPath;
      ghost var h := Now(Nodes(tree));
      AtNode(h, p, b, x, r);
      var left := x.left;
      if left == null {
        return x;
      }
      AtChildren(h, p, b, x, r);
      RotateRightLinks(h, p, b.left, b.node, b.right, x, r);
      RotationKeepsOrder(p, b.left, b.node, b.right, x, r);
      RewireRight(x, left, left.right, x.parent, Nodes(tree));
      tree := High(p, b.left, b.node, b.right, x, r);
      return left;
    }

    /** The last step of splay: node's parent is the root. */
    method LiftOnce(node: Node, parent: Node, ghost p: Path, ghost l: Tree, ghost r: Tree)
      requires Shape() && tree == Plug(p, Fork(l, node, r)) && !p.Top? && p.up.Top? && parent == p.node
      modifies `root, `tree, Nodes(tree)
      ensures Shape() && Nodes(tree) == old(Nodes(tree)) && InOrder(tree) == old(InOrder(tree))
      ensures tree.Fork? && tree.node == node
    {
      AtParent(Now(Nodes(tree)), p, l, node, r);
      hide Linked, Separate, Nodes, PathNodes, InOrder, LinkedPath;
      if parent.left == node {
        var _ := RotateRight(parent, Top, Fork(l, node, r), p.right);
      } else {
        var _ := RotateLeft(parent, Top, p.left, Fork(l, node, r));
      }
    }

    /** Any other step of splay: node goes up two levels. */
    method LiftTwice(node: Node, parent: Node, ghost p: Path, ghost l: Tree, ghost r: Tree)
      returns (ghost l': Tree, ghost r': Tree)
      requires Shape() && tree == Plug(p, Fork(l, node, r)) && !p.Top? && !p.up.Top? && parent == p.node
      modifies `root, `tree, Nodes(tree)
      ensures Shape() && Nodes(tree) == old(Nodes(tree)) && InOrder(tree) == old(InOrder(tree))
      ensures tree == Plug(p.up.up, Fork(l', node, r'))
    {
      AtParent(Now(Nodes(tree)), p, l, node, r);
      ghost var q, g := p.up, p.up.up;
      var parentFlag := parent.left != node;
      var grandParent := parent.parent;
      AtGrandParent(Now(Nodes(tree)), p, l, node, r);
      var grandpaFlag := grandParent.left != parent;
      hide Linked, Separate, Nodes, PathNodes, InOrder, LinkedPath, Above;
      if parentFlag != grandpaFlag {
        if !parentFlag {
          var _ := RotateRight(parent, q, Fork(l, node, r), p.right);
          var _ := RotateLeft(grandParent, g, q.left, Fork(l, node, Fork(r, parent, p.right)));
          l', r' := Fork(q.left, grandParent, l), Fork(r, parent, p.right);
        } else {
          var _ := RotateLeft(parent, q, p.left, Fork(l, node, r));
          var _ := RotateRight(grandParent, g, Fork(Fork(p.left, parent, l), node, r), q.right);
          l', r' := Fork(p.left, parent, l), Fork(r, grandParent, q.right);
        }
      } else {
        if !parentFlag {
          var _ := RotateRight(grandParent, g, Fork(Fork(l, node, r), parent, p.right), q.right);
          var _ := RotateRight(parent, g, Fork(l, node, r), Fork(p.right, grandParent, q.right));
          l', r' := l, Fork(r, parent, Fork(p.right, grandParent, q.right));
        } else {
          var _ := RotateLeft(grandParent, g, q.left, Fork(p.left, parent, Fork(l, node, r)));
          var _ := RotateLeft(parent, g, Fork(q.left, grandParent, p.left), Fork(l, node, r));
          l', r' := Fork(Fork(q.left, grandParent, p.left), parent, l), r;
        }
      }
    }

    /** Splays node to the root; the bound on the number of steps never cuts this short. */
    method Splay(node: Node, ghost p: Path, ghost l: Tree, ghost r: Tree)
      requires Shape() && tree == Plug(p, Fork(l, node, r)) && numNodes == |InOrder(tree)|
      modifies `root, `tree, Nodes(tree)
      ensures Shape() && Nodes(tree) == old(Nodes(tree)) && InOrder(tree) == old(InOrder(tree))
      ensures tree.Fork? && tree.node == node && root == node
    {
      hide Linked, Separate, Nodes, PathNodes, InOrder, LinkedPath;
      var splayCnt := 0;
      var maxSplay := numNodes / 2;
      ghost var path, a, b := p, l, r;
      DepthIsBounded(p, Fork(l, node, r));
      while node != root
        invariant Shape() && Nodes(tree) == old(Nodes(tree)) && InOrder(tree) == old(InOrder(tree))
        invariant tree == Plug(path, Fork(a, node, b))
        invariant Depth(path) + 2 * splayCnt < numNodes
        decreases Depth(path)
      {
        AtNode(Now(Nodes(tree)), path, a, node, b);
        var parent := node.parent;
        AtParent(Now(Nodes(tree)), path, a, node, b);
        if parent == root {
          LiftOnce(node, parent, path, a, b);
          path := Top;
          break;
        }
        a, b := LiftTwice(node, parent, path, a, b);
        path := path.up.up;
        if splayCnt >= maxSplay {
          break;
        }
        splayCnt := splayCnt + 1;
      }
    }

    // ----------------------------------------------------------------------------------------
    // The queue operations
    // ----------------------------------------------------------------------------------------

    ghost predicate Valid()
      reads this, Nodes(tree)
    {
      && Shape() && numNodes == |InOrder(tree)| && Ordered(Keys())
      && (tree.Fork? ==> current == InOrder(tree)[0])
    }

    ghost function Keys(): seq<int>
      reads this
    {
      KeysOf(InOrder(tree))
    }

    /** The loop that looks for the lowest event. */
    method Leftmost() returns (node: Node)
      requires Shape() && root != null
      ensures Shape() && InOrder(tree) != [] && node == InOrder(tree)[0]
    {
      hide Linked, Separate, Nodes, PathNodes, InOrder, LinkedPath;
      node := root;
      ghost var p, l, r := Top, tree.left, tree.right;
      while node.left != null
        invariant Shape() && tree == old(tree) && tree == Plug(p, Fork(l, node, r)) && Before(p) == []
        decreases |InOrder(l)|
      {
        AtNode(Now(Nodes(tree)), p, l, node, r);
        AtChildren(Now(Nodes(tree)), p, l, node, r);
        SmallerInside(l);
        p := InLeft(p, node, r);
        node := node.left;
        l, r := l.left, l.right;
      }
      AtNode(Now(Nodes(tree)), p, l, node, r);
      PlugInOrder(p, Fork(l, node, r));
      InOrderOfFork(l, node, r);
    }

    method Begin() returns (key: Key)
      requires Valid()
      modifies `root, `current, `numNodes
      ensures Valid() && tree == old(tree)
      ensures key == if Keys() == [] then NoKey else Lowest(Keys()[0])
      ensures key.Lowest? ==> forall k :: k in Keys() ==> key.key <= k
    {
      if root == null || numNodes == 0 {
        root := null;
        current := null;
        numNodes := 0;
        return NoKey;
      }
      key := Lowest(current.data);
    }

    /** A new node takes an empty place. */
    method Attach(newNode: Node, node: Node, onLeft: bool, ghost p: Path)
      requires Shape() && tree == Plug(p, Leaf) && !p.Top? && p.node == node && p.InLeft? == onLeft
      requires newNode !in Nodes(tree) && newNode.left == null == newNode.right
      modifies `tree, Nodes(tree), newNode
      ensures Shape() && tree == Plug(p, Fork(Leaf, newNode, Leaf))
      ensures InOrder(tree) == Before(p) + [newNode] + After(p) && old(InOrder(tree)) == Before(p) + After(p)
      ensures Nodes(tree) == old(Nodes(tree)) + {newNode}
    {
      hide Linked, Separate, PathNodes, InOrder, LinkedPath, Plug, Nodes;
      ghost var h := Now(Nodes(tree));
      AttachLinks(h, p, newNode);
      if onLeft {
        node.left := newNode;
      } else {
        node.right := newNode;
      }
      newNode.parent := node;
      tree := Plug(p, Fork(Leaf, newNode, Leaf));
      assert Now(Nodes(tree)) == Filled(h, p, newNode);
    }

    /** The loop that looks for the place of a key behind the lowest. */
    method FindPlace(key: int) returns (node: Node, onLeft: bool, ghost p: Path)
      requires Shape() && root != null && Ordered(Keys())
      ensures Shape() && tree == Plug(p, Leaf) && !p.Top? && p.node == node && p.InLeft? == onLeft
      ensures (forall x :: x in Before(p) ==> x.data < key) && (forall x :: x in After(p) ==> key <= x.data)
    {
      hide Linked, Separate, Nodes, PathNodes, InOrder, LinkedPath;
      node := root;
      p := Top;
      ghost var l, r := tree.left, tree.right;
      while true
        invariant Shape() && tree == old(tree) && tree == Plug(p, Fork(l, node, r))
        invariant (forall x :: x in Before(p) ==> x.data < key) && (forall x :: x in After(p) ==> key <= x.data)
        decreases |InOrder(l)| + |InOrder(r)|
      {
        AtNode(Now(Nodes(tree)), p, l, node, r);
        OrderedAt(p, l, node, r);
        SmallerInside(l);
        SmallerInside(r);
        if key <= node.data {
          p := InLeft(p, node, r);
          if node.left == null {
            return node, true, p;
          }
          node := node.left;
          l, r := l.left, l.right;
        } else {
          p := InRight(p, node, l);
          if node.right == null {
            return node, false, p;
          }
          node := node.right;
          l, r := r.left, r.right;
        }
      }
    }

    /** A node is being inserted: it is counted already, but not in the tree yet. */
    ghost predicate Inserting(newNode: Node)
      reads this, Nodes(tree), newNode
    {
      && Shape() && numNodes == |InOrder(tree)| + 1 && Ordered(Keys())
      && (tree.Fork? ==> current == InOrder(tree)[0])
      && newNode !in Nodes(tree) && newNode.left == null == newNode.right && newNode.parent == null
    }

    method InsertFirst(newNode: Node)
      requires Inserting(newNode) && root == null
      modifies this
      ensures Valid() && Keys() == Inserted(old(Keys()), newNode.data) && Nodes(tree) == {newNode}
    {
      EmptyTree(tree);
      SingleNode(newNode);
      SingleLinked(newNode);
      hide InOrder, Nodes, Separate, Linked;
      root := newNode;
      current := newNode;
      tree := Fork(Leaf, newNode, Leaf);
      assert Now({newNode}) == map[newNode := Pointers(null, null, null)];
      assert KeysOf([newNode]) == [newNode.data];
    }

    /** The new node becomes the leftmost one. */
    method InsertLowest(newNode: Node)
      requires Inserting(newNode) && root != null && newNode.data <= current.data
      modifies this, Nodes(tree), newNode
      ensures Valid() && Keys() == Inserted(old(Keys()), newNode.data) && Nodes(tree) == old(Nodes(tree)) + {newNode}
    {
      hide Linked, Separate, PathNodes, InOrder, LinkedPath, Ordered, Inserted, Nodes;
      ghost var p, r := LeftEnd(tree);
      ghost var q := InLeft(p, current, r);
      assert [] + InOrder(tree) == InOrder(tree);
      InsertedBetween(InOrder(tree), [], InOrder(tree), newNode);
      LowestIsHere(Now(Nodes(tree)), p, current, r);
      Attach(newNode, current, true, q);
      current := newNode;
      Splay(newNode, q, Leaf, Leaf);
    }

    method InsertBehind(newNode: Node)
      requires Inserting(newNode) && root != null && newNode.data > current.data
      modifies this, Nodes(tree), newNode
      ensures Valid() && Keys() == Inserted(old(Keys()), newNode.data) && Nodes(tree) == old(Nodes(tree)) + {newNode}
    {
      hide Linked, Separate, PathNodes, InOrder, LinkedPath, Ordered, Inserted, Nodes;
      var node, onLeft, p := FindPlace(newNode.data);
      EmptyPlace(p);
      NotEmpty(tree);
      FirstIsBefore(p, InOrder(tree), newNode.data);
      InsertedBetween(InOrder(tree), Before(p), After(p), newNode);
      Attach(newNode, node, onLeft, p);
      Splay(newNode, p, Leaf, Leaf);
    }

    method Insert(key: int)
      requires Valid()
      modifies this, Nodes(tree)
      ensures Valid() && Keys() == Inserted(old(Keys()), key)
      ensures fresh(Nodes(tree) - old(Nodes(tree)))
    {
      hide Linked, Separate, InOrder, Ordered, Inserted, Nodes;
      var newNode := new Node(key);
      numNodes := numNodes + 1;
      assert Now(Nodes(tree)) == old(Now(Nodes(tree)));
      NotEmpty(tree);
      if root == null {
        InsertFirst(newNode);
      } else if key <= current.data {
        InsertLowest(newNode);
      } else {
        InsertBehind(newNode);
      }
    }

    /** The search of erase, which starts at the lowest node if the key is not above it. */
    method Find(key: int) returns (node: Node?, ghost p: Path, ghost l: Tree, ghost r: Tree)
      requires Valid() && root != null
      ensures Valid() && (node == null ==> key !in Keys())
      ensures node != null ==> tree == Plug(p, Fork(l, node, r)) && node.data == key && key in Keys()
    {
      hide Linked, Separate, Nodes, PathNodes, InOrder, LinkedPath, Ordered;
      NotEmpty(tree);
      l, r := Leaf, Leaf;
      ghost var sub;
      if key <= current.data {
        node := current;
        p, r := LeftEnd(tree);
        sub := Fork(Leaf, current, r);
        LowestFirst(InOrder(tree), key);
        InOrderOfFork(Leaf, current, r);
        KeyHere([], current, InOrder(r));
      } else {
        node := root;
        p, sub := Top, tree;
      }
      while node != null
        invariant Valid() && tree == old(tree) && tree == Plug(p, sub) && node == Root(sub)
        invariant key in Keys() ==> key in KeysOf(InOrder(sub))
        decreases |InOrder(sub)|
      {
        l, r := sub.left, sub.right;
        AtNode(Now(Nodes(tree)), p, l, node, r);
        OrderedAt(p, l, node, r);
        SmallerInside(sub);
        InOrderOfFork(l, node, r);
        WhichSide(InOrder(l), node, InOrder(r), key);
        if key < node.data {
          p, sub := InLeft(p, node, r), l;
          node := node.left;
        } else if key == node.data {
          PlugInOrder(p, sub);
          KeyHere(Before(p) + InOrder(l), node, InOrder(r) + After(p));
          Middle(Before(p), InOrder(l), [node], InOrder(r), After(p));
          return;
        } else {
          p, sub := InRight(p, node, l), r;
          node := node.right;
        }
      }
      EmptyTree(sub);
    }

    /** The loop that looks for the highest node below the left child of the removed root. */
    method Rightmost(top: Node, ghost t: Tree) returns (m: Node, ghost q: Path, ghost ll: Tree)
      requires Separate(t) && Linked(Now(Nodes(t)), t, null) && top == Root(t)
      ensures t == Plug(q, Fork(ll, m, Leaf)) && After(q) == [] && m in Nodes(t)
    {
      hide Linked, Separate, Nodes, PathNodes, InOrder, LinkedPath;
      ghost var h := Now(Nodes(t));
      m := top;
      q := Top;
      ghost var r;
      ll, r := t.left, t.right;
      while m.right != null
        invariant h == Now(Nodes(t)) && Linked(h, t, null) && t == Plug(q, Fork(ll, m, r)) && After(q) == []
        decreases |InOrder(r)|
      {
        AtNode(h, q, ll, m, r);
        SmallerInside(r);
        q := InRight(q, m, ll);
        m := m.right;
        ll, r := r.left, r.right;
      }
      AtNode(h, q, ll, m, r);
    }

    /** The right subtree becomes the tree. */
    method KeepRight(right: Node?, ghost l: Tree, ghost r: Tree)
      requires Shape() && root != null && tree == Fork(l, root, r) && right == Root(r)
      modifies `root, `tree, Nodes(tree)
      ensures Shape() && tree == r
    {
      ghost var h, x := Now(Nodes(tree)), root;
      RootParts(h, l, x, r);
      DetachLinks(h, r, x, l);
      RootIsInside(r);
      hide Linked, Separate, InOrder, Nodes, LinkedPath, PathNodes, Plug;
      root := right;
      tree := r;
      if root != null {
        root.parent := null;
      }
      LinkedElsewhere(SetParent(h, right, null), Now(Nodes(r)), r, null);
    }

    /** The left subtree becomes the tree ... */
    method KeepLeft(left: Node, ghost l: Tree, ghost r: Tree)
      requires Shape() && root != null && tree == Fork(l, root, r) && left == Root(l)
      modifies `root, `tree, Nodes(tree)
      ensures Shape() && tree == l && Separate(r) && Nodes(l) !! Nodes(r)
      ensures Linked(Now(Nodes(l) + Nodes(r)), r, old(root)) && Linked(Now(Nodes(l) + Nodes(r)), l, null)
    {
      ghost var h, x := Now(Nodes(tree)), root;
      RootParts(h, l, x, r);
      DetachLinks(h, l, x, r);
      RootIsInside(l);
      hide Linked, Separate, InOrder, Nodes;
      root := left;
      tree := l;
      root.parent := null;
      ghost var h1 := SetParent(h, left, null);
      LinkedElsewhere(h1, Now(Nodes(l)), l, null);
      LinkedElsewhere(h1, Now(Nodes(l) + Nodes(r)), r, x);
      LinkedElsewhere(h1, Now(Nodes(l) + Nodes(r)), l, null);
    }

    /** ... and the right one is hung below its highest node. */
    method Join(right: Node, ghost r: Tree, ghost x: Node)
      requires Shape() && tree.Fork? && r.Fork? && right == Root(r) && Separate(r) && Nodes(tree) !! Nodes(r)
      requires Linked(Now(Nodes(tree) + Nodes(r)), r, x) && Linked(Now(Nodes(tree) + Nodes(r)), tree, null)
      modifies `tree, Nodes(tree), Nodes(r)
      ensures Shape() && Nodes(tree) == old(Nodes(tree)) + Nodes(r)
      ensures InOrder(tree) == old(InOrder(tree)) + InOrder(r)
    {
      hide Linked, Separate, InOrder, Nodes, Plug;
      ghost var h := Now(Nodes(tree) + Nodes(r));
      var m, q, ll := Rightmost(root, tree);
      JoinLinks(h, q, ll, m, r, x);
      m.right := right;
      right.parent := m;
      tree := Plug(q, Fork(ll, m, r));
      assert Now(Nodes(tree)) == Joined(h, m, right);
    }

    /** Takes the root out and joins its subtrees. */
    method RemoveRoot()
      requires Shape() && tree.Fork?
      modifies `root, `tree, Nodes(tree)
      ensures Shape() && Nodes(tree) <= old(Nodes(tree))
      ensures InOrder(tree) == InOrder(old(tree).left) + InOrder(old(tree).right)
    {
      ghost var l, x, r := tree.left, tree.node, tree.right;
      RootParts(Now(Nodes(tree)), l, x, r);
      EmptyTree(l);
      EmptyTree(r);
      hide Linked, Separate, InOrder, Nodes;
      var left := root.left;
      var right := root.right;
      if left != null {
        KeepLeft(left, l, r);
        if right != null {
          Join(right, r, x);
        }
      } else {
        KeepRight(right, l, r);
      }
    }

    /** The second half of erase: the event is at the root. */
    method EraseRoot()
      requires Shape() && tree.Fork? && numNodes == |InOrder(tree)| && Ordered(Keys())
      modifies this, Nodes(tree)
      ensures Valid() && Nodes(tree) <= old(Nodes(tree))
      ensures multiset(Keys()) == multiset(old(Keys())) - multiset{old(tree).node.data}
    {
      hide Linked, Separate, InOrder, Nodes, Ordered, KeysOf;
      InOrderOfFork(tree.left, tree.node, tree.right);
      WithoutOne(InOrder(tree.left), tree.node, InOrder(tree.right));
      numNodes := numNodes - 1;
      RemoveRoot();
      NotEmpty(tree);
      if root != null {
        current := Leftmost();
      }
    }

    /** Removes one occurrence of the key, if there is one. */
    method Erase(key: int) returns (found: bool)
      requires Valid() && root != null
      modifies this, Nodes(tree)
      ensures Valid() && Nodes(tree) <= old(Nodes(tree))
      ensures found <==> key in old(Keys())
      ensures !found ==> Keys() == old(Keys())
      ensures found ==> multiset(Keys()) == multiset(old(Keys())) - multiset{key}
    {
      hide Linked, Separate, InOrder, Nodes, Ordered, PathNodes, KeysOf;
      var node, p, l, r := Find(key);
      if node == null {
        return false;
      }
      AtNode(Now(Nodes(tree)), p, l, node, r);
      if node != root {
        Splay(node, p, l, r);
      }
      EraseRoot();
      return true;
    }
  }
}
