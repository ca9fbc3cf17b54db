/**
 * The iterative depth-first element lookup `findElement` of the SAML response tests.
 *
 * A DOM is a sequence of nodes held in document order (pre-order): node 0 is the
 * document root and every link (parent, first child, next sibling) is the index of
 * the node it points to, or `Null`.  The ghost sequence `ends` gives, for every node,
 * the index just past its subtree, so the subtree of `i` is the index range
 * [i, ends[i]).  `Valid` ties the links to these ranges.
 */
module DomSearch {
  import opened Wrappers

  const Null: int := -1

  datatype NodeType = ElementNode | TextNode | OtherNode

  datatype DomNode = DomNode(
    nodeType: NodeType,
    localName: string,
    namespaceUri: Option<string>,
    parent: int,
    firstChild: int,
    nextSibling: int)

  /**
   * The facts about one node: its subtree range, and its first-child, next-sibling
   * and parent links agree with the ranges.
   */
  ghost predicate NodeOk(nodes: seq<DomNode>, ends: seq<int>, i: int)
    requires |ends| == |nodes| && 0 <= i < |nodes|
  {
    && i < ends[i] <= |nodes|
    && nodes[i].firstChild == (if i + 1 < ends[i] then i + 1 else Null)
    && (i == 0 <==> nodes[i].parent == Null)
    && (0 < i ==> 0 <= nodes[i].parent < i < ends[nodes[i].parent])
    && nodes[i].nextSibling ==
         (if 0 < i && ends[i] < ends[nodes[i].parent] then ends[i] else Null)
  }

  /** Subtrees are nested or disjoint. */
  ghost predicate Nested(ends: seq<int>, i: int, j: int)
    requires 0 <= i < |ends| && 0 <= j < |ends|
  {
    i < j < ends[i] ==> ends[j] <= ends[i]
  }

  /** The parent of a node is its nearest enclosing subtree. */
  ghost predicate Nearest(nodes: seq<DomNode>, ends: seq<int>, i: int, q: int)
    requires |ends| == |nodes| && 0 <= i < |nodes| && 0 <= q < |nodes|
  {
    0 < i && nodes[i].parent < q < i ==> ends[q] <= i
  }

  ghost predicate Valid(nodes: seq<DomNode>, ends: seq<int>)
  {
    && |nodes| > 0
    && |ends| == |nodes|
    && ends[0] == |nodes|
    && (forall i :: 0 <= i < |nodes| ==> Null <= nodes[i].parent < i)
    && (forall i :: 0 <= i < |nodes| ==> NodeOk(nodes, ends, i))
    && (forall i, j :: 0 <= i < |nodes| && 0 <= j < |nodes| ==> Nested(ends, i, j))
    && (forall i, q :: 0 <= i < |nodes| && 0 <= q < |nodes| ==> Nearest(nodes, ends, i, q))
  }

  /** The index just past the subtree of `p`; the whole document for `Null`. */
  ghost function End(nodes: seq<DomNode>, ends: seq<int>, p: int): (e: int)
    requires Valid(nodes, ends)
    requires p == Null || 0 <= p < |nodes|
    ensures e <= |nodes|
  {
    if p == Null then |nodes| else assert NodeOk(nodes, ends, p); ends[p]
  }

  /** `x` lies strictly inside the subtree of `p` (anywhere in the document for `Null`). */
  ghost predicate Inside(nodes: seq<DomNode>, ends: seq<int>, x: int, p: int)
    requires Valid(nodes, ends)
    requires p == Null || 0 <= p < |nodes|
  {
    0 <= x < |nodes| && p < x < End(nodes, ends, p)
  }

  /** The test `findElement` applies to each visited node. */
  predicate Matches(node: DomNode, name: string, namespace: Option<string>)
  {
    && node.nodeType == ElementNode
    && node.localName == name
    && (|| (node.namespaceUri.Some? && namespace.Some? && node.namespaceUri.value == namespace.value)
        || (IsNullOrEmpty(namespace) && IsNullOrEmpty(node.namespaceUri)))
  }

  /** Climbing from a node inside the subtree of `p` reaches `p` or stays inside it. */
  lemma ParentStaysInside(nodes: seq<DomNode>, ends: seq<int>, x: int, p: int)
    requires Valid(nodes, ends)
    requires p == Null || 0 <= p < |nodes|
    requires Inside(nodes, ends, x, p)
    ensures nodes[x].parent == p || Inside(nodes, ends, nodes[x].parent, p)
  {
    assert NodeOk(nodes, ends, x);
    if p != Null && x != 0 {
      assert Nearest(nodes, ends, x, p);
      var q := nodes[x].parent;
      if q != p {
        assert NodeOk(nodes, ends, q);
      }
    } else if x != 0 {
      assert NodeOk(nodes, ends, nodes[x].parent);
    }
  }

  /** Descending: the first child of a node is the next node in document order. */
  lemma DescendStep(nodes: seq<DomNode>, ends: seq<int>, k: int, p: int)
    requires Valid(nodes, ends)
    requires p == Null || 0 <= p < |nodes|
    requires Inside(nodes, ends, k, p)
    ensures nodes[k].firstChild == Null ==> ends[k] == k + 1
    ensures nodes[k].firstChild != Null ==>
      nodes[k].firstChild == k + 1 && Inside(nodes, ends, k + 1, p)
  {
    assert NodeOk(nodes, ends, k);
    if p != Null {
      assert Nested(ends, p, k);
    }
  }

  /** The next sibling of a node inside `p` is the node just past its subtree, still inside `p`. */
  lemma SiblingStep(nodes: seq<DomNode>, ends: seq<int>, q: int, p: int)
    requires Valid(nodes, ends)
    requires p == Null || 0 <= p < |nodes|
    requires Inside(nodes, ends, q, p)
    ensures nodes[q].nextSibling != Null ==>
      nodes[q].nextSibling == ends[q] && Inside(nodes, ends, ends[q], p)
  {
    assert NodeOk(nodes, ends, q);
    if nodes[q].nextSibling != Null {
      ParentStaysInside(nodes, ends, q, p);
      var r := nodes[q].parent;
      assert NodeOk(nodes, ends, r);
      if p != Null && r != p {
        assert Nested(ends, p, r);
      }
    }
  }

  /** A last child ends where its parent ends; climbing out of it stops at `p` or stays inside. */
  lemma ClimbStep(nodes: seq<DomNode>, ends: seq<int>, q: int, p: int)
    requires Valid(nodes, ends)
    requires p == Null || 0 <= p < |nodes|
    requires Inside(nodes, ends, q, p)
    requires nodes[q].nextSibling == Null
    ensures nodes[q].parent == p ==> ends[q] == End(nodes, ends, p)
    ensures nodes[q].parent != p ==>
      Inside(nodes, ends, nodes[q].parent, p) && ends[nodes[q].parent] == ends[q]
  {
    assert NodeOk(nodes, ends, q);
    ParentStaysInside(nodes, ends, q, p);
    if q != 0 {
      assert Nested(ends, nodes[q].parent, q);
    }
  }

  /** In document order a node's first child comes before its next sibling. */
  lemma FirstChildBeforeNextSibling(nodes: seq<DomNode>, ends: seq<int>, k: int)
    requires Valid(nodes, ends)
    requires 0 <= k < |nodes|
    requires nodes[k].firstChild != Null && nodes[k].nextSibling != Null
    ensures k < nodes[k].firstChild < nodes[k].nextSibling
  {
    assert NodeOk(nodes, ends, k);
  }

  /** The next sibling of a node has the same parent. */
  lemma SiblingSharesParent(nodes: seq<DomNode>, ends: seq<int>, s: int)
    requires Valid(nodes, ends)
    requires 0 <= s < |nodes| && nodes[s].nextSibling != Null
    ensures 0 <= nodes[s].nextSibling < |nodes|
    ensures nodes[nodes[s].nextSibling].parent == nodes[s].parent
  {
    assert NodeOk(nodes, ends, s);
    var p, t := nodes[s].parent, ends[s];
    assert NodeOk(nodes, ends, p);
    assert NodeOk(nodes, ends, t);
    var r := nodes[t].parent;
    assert Nearest(nodes, ends, t, p);
    assert Nearest(nodes, ends, s, r);
    assert Nested(ends, s, r);
  }

  /** `j` is in the subtree of `s` or of one of its following siblings. */
  ghost predicate InSiblingSubtrees(nodes: seq<DomNode>, ends: seq<int>, s: int, j: int)
    requires Valid(nodes, ends)
    requires 0 <= s < |nodes|
    decreases |nodes| - s
  {
    assert NodeOk(nodes, ends, s);
    assert nodes[s].nextSibling != Null ==> NodeOk(nodes, ends, nodes[s].parent);
    || s <= j < ends[s]
    || (nodes[s].nextSibling != Null && InSiblingSubtrees(nodes, ends, nodes[s].nextSibling, j))
  }

  /**
   * The index range `FindElement` searches, from the start node to the end of its
   * parent's subtree, is exactly the start node's subtree and the subtrees of its
   * following siblings.
   */
  lemma {:induction false} SearchRangeIsSiblingSubtrees(nodes: seq<DomNode>, ends: seq<int>, s: int)
    requires Valid(nodes, ends)
    requires 0 <= s < |nodes|
    ensures forall j :: InSiblingSubtrees(nodes, ends, s, j) <==>
      s <= j < End(nodes, ends, nodes[s].parent)
    decreases |nodes| - s
  {
    assert NodeOk(nodes, ends, s);
    var p := nodes[s].parent;
    if nodes[s].nextSibling == Null {
      if s != 0 {
        assert NodeOk(nodes, ends, p);
        assert Nested(ends, p, s);
      }
    } else {
      SiblingSharesParent(nodes, ends, s);
      SearchRangeIsSiblingSubtrees(nodes, ends, ends[s]);
    }
  }

  /**
   * Searches, in document order, the start node, its descendants, its following
   * siblings and their descendants for the first element named `name` in
   * `namespace`; `Null` when there is none (or when the start node is `Null`).
   */
  method FindElement(nodes: seq<DomNode>, ghost ends: seq<int>, startNode: int,
                     name: string, namespace: Option<string>) returns (found: int)
    requires Valid(nodes, ends)
    requires startNode == Null || 0 <= startNode < |nodes|
    ensures startNode == Null ==> found == Null
    ensures startNode != Null ==>
      var stop := End(nodes, ends, nodes[startNode].parent);
      && (found == Null || (startNode <= found < stop && Matches(nodes[found], name, namespace)))
      && (forall j :: startNode <= j < (if found == Null then stop else found) ==>
            !Matches(nodes[j], name, namespace))
  {
    if startNode == Null {
      return Null;
    }
    var startParent := nodes[startNode].parent;
    ghost var stop := End(nodes, ends, startParent);
    assert Inside(nodes, ends, startNode, startParent) by {
      assert NodeOk(nodes, ends, startNode);
    }
    var processedNode := Null;
    var current := startNode;
    while current != Null
      invariant current != Null ==> startNode <= current && Inside(nodes, ends, current, startParent)
      invariant forall j :: startNode <= j < (if current == Null then stop else current) ==>
        !Matches(nodes[j], name, namespace)
      decreases stop - current
    {
      if Matches(nodes[current], name, namespace) {
        return current;
      }
      ghost var visited := current;
      processedNode := current;
      DescendStep(nodes, ends, processedNode, startParent);
      current := nodes[processedNode].firstChild;
      if current == Null {
        SiblingStep(nodes, ends, processedNode, startParent);
        current := nodes[processedNode].nextSibling;
      }
      while current == Null
        invariant Inside(nodes, ends, processedNode, startParent)
        invariant current == Null ==>
          ends[processedNode] == visited + 1 && nodes[processedNode].nextSibling == Null
        invariant current != Null ==> current == visited + 1 && Inside(nodes, ends, current, startParent)
        decreases processedNode
      {
        ClimbStep(nodes, ends, processedNode, startParent);
        processedNode := nodes[processedNode].parent;
        if processedNode == startParent {
          return Null;
        }
        SiblingStep(nodes, ends, processedNode, startParent);
        current := nodes[processedNode].nextSibling;
      }
    }
    return Null;
  }
}
