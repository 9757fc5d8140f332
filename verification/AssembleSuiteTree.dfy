/** The one-pass assembler: it links shared node objects through their children lists and
    sorts those lists in place, and what it leaves in memory is the forest of SuiteForest. */
module AssembleSuiteTree {
  import opened Domain
  import opened ParentWalk
  import opened SuiteForest

  class SuiteTreeNode {
    const id: Id
    const name: string
    const position: int
    const caseCount: nat
    var children: seq<SuiteTreeNode>

    constructor (n: SuiteFlatNode)
      ensures id == n.id && name == n.name && position == n.position && caseCount == n.caseCount
      ensures children == []
    {
      id, name, position, caseCount, children := n.id, n.name, n.position, n.caseCount, [];
    }
  }

  type Index = map<Id, SuiteTreeNode>

  /** The objects reachable from ns spell out the trees ts, all within repr. */
  ghost predicate Represents(ns: seq<SuiteTreeNode>, ts: seq<SuiteTree>, repr: set<SuiteTreeNode>)
    reads repr
    decreases ts
  {
    && |ns| == |ts|
    && forall i :: 0 <= i < |ts| ==>
         && ns[i] in repr
         && ns[i].id == ts[i].id && ns[i].name == ts[i].name
         && ns[i].position == ts[i].position && ns[i].caseCount == ts[i].caseCount
         && Represents(ns[i].children, ts[i].children, repr)
  }

  ghost predicate Copies(node: SuiteTreeNode, n: SuiteFlatNode) {
    node.id == n.id && node.name == n.name && node.position == n.position && node.caseCount == n.caseCount
  }

  /** One object per listed node, with that node's fields. */
  ghost predicate Indexed(nodes: seq<SuiteFlatNode>, byId: Index) {
    && DistinctIds(nodes)
    && byId.Keys == IdSet(nodes)
    && forall x :: x in byId ==> Copies(byId[x], Node(nodes, x))
  }

  ghost function Pick(byId: Index, ids: seq<Id>): (ns: seq<SuiteTreeNode>)
    requires forall x :: x in ids ==> x in byId
    ensures |ns| == |ids| && forall i :: 0 <= i < |ids| ==> ns[i] == byId[ids[i]]
  {
    seq(|ids|, i requires 0 <= i < |ids| => byId[ids[i]])
  }

  function PositionOf(n: SuiteTreeNode): int {
    n.position
  }

  lemma PositionsAgree(nodes: seq<SuiteFlatNode>, byId: Index, x: Id)
    requires Indexed(nodes, byId) && x in byId
    ensures PositionOf(byId[x]) == PositionIn(nodes)(x)
  {
  }

  lemma {:induction false} InsertPicked(nodes: seq<SuiteFlatNode>, byId: Index, x: Id, ids: seq<Id>)
    requires Indexed(nodes, byId) && x in byId && forall y :: y in ids ==> y in byId
    ensures var r := Insert(x, ids, PositionIn(nodes));
            && (forall y :: y in r ==> y in byId)
            && Insert(byId[x], Pick(byId, ids), PositionOf) == Pick(byId, r)
  {
    hide Indexed, PositionIn;
    PositionsAgree(nodes, byId, x);
    if ids != [] {
      PositionsAgree(nodes, byId, ids[0]);
      InsertPicked(nodes, byId, x, ids[1..]);
      assert Pick(byId, ids)[1..] == Pick(byId, ids[1..]);
    }
  }

  /** Sorting the objects and sorting their ids is the same thing. */
  lemma {:induction false} SortPicked(nodes: seq<SuiteFlatNode>, byId: Index, ids: seq<Id>)
    requires Indexed(nodes, byId) && forall y :: y in ids ==> y in byId
    ensures forall y :: y in SortIds(nodes, ids) ==> y in byId
    ensures StableSort(Pick(byId, ids), PositionOf) == Pick(byId, SortIds(nodes, ids))
  {
    if ids != [] {
      SortPicked(nodes, byId, ids[1..]);
      assert Pick(byId, ids)[1..] == Pick(byId, ids[1..]);
      InsertPicked(nodes, byId, ids[0], SortIds(nodes, ids[1..]));
    }
  }

  // ----- children lists as a map, so that sorting below a list is a function on maps -----

  type Kids = map<Id, seq<SuiteTreeNode>>

  ghost function KidsOf(byId: Index): (k: Kids)
    reads byId.Values
    ensures k.Keys == byId.Keys
  {
    map x | x in byId :: byId[x].children
  }

  ghost function ListedKids(nodes: seq<SuiteFlatNode>, byId: Index, x: Id): seq<SuiteTreeNode>
    requires Indexed(nodes, byId)
  {
    SortedChildIdsProperties(nodes, Some(x));
    Pick(byId, ChildIds(nodes, Some(x)))
  }

  ghost function SortedKids(nodes: seq<SuiteFlatNode>, byId: Index, x: Id): seq<SuiteTreeNode>
    requires Indexed(nodes, byId)
  {
    StableSort(ListedKids(nodes, byId, x), PositionOf)
  }

  ghost predicate ListedBelow(k: Kids, nodes: seq<SuiteFlatNode>, byId: Index, ids: seq<Id>)
    requires Indexed(nodes, byId)
  {
    forall x :: x in k && Below(nodes, ids, x) ==> k[x] == ListedKids(nodes, byId, x)
  }

  ghost function SortBelow(k: Kids, nodes: seq<SuiteFlatNode>, byId: Index, ids: seq<Id>): Kids
    requires Indexed(nodes, byId)
  {
    map x | x in k :: if Below(nodes, ids, x) then SortedKids(nodes, byId, x) else k[x]
  }

  /** Below the first i + 1 siblings: below the first i, or below the next one's children,
      or the next one itself; the three cases exclude each other. */
  lemma BelowNext(nodes: seq<SuiteFlatNode>, byId: Index, order: seq<Id>, i: nat, d: nat, x: Id)
    requires Indexed(nodes, byId) && Level(nodes, order, d) && Distinct(order) && i < |order| && x in byId
    ensures var q := order[i];
            var kids := ChildIds(nodes, Some(q));
            && (Below(nodes, order[..i + 1], x) <==> Below(nodes, order[..i], x) || Below(nodes, kids, x) || x == q)
            && (Below(nodes, kids, x) ==> !Below(nodes, order[..i], x) && x != q && Below(nodes, order, x))
            && (x == q ==> !Below(nodes, order[..i], x) && Below(nodes, order, x))
  {
    var p, q := ParentLinks(nodes), order[i];
    assert q in order;
    ChainDistinct(p, x);
    UnderPrefix(p, order, i);
    if Rooted(p, x) {
      UnderChildren(nodes, q, x, ChildIds(nodes, Some(q)));
      if q in Chain(p, x) { NotUnderEarlier(nodes, order, i, x, d); }
    }
  }

  lemma SortBelowAt(k: Kids, nodes: seq<SuiteFlatNode>, byId: Index, ids: seq<Id>, x: Id)
    requires Indexed(nodes, byId) && x in k
    ensures x in SortBelow(k, nodes, byId, ids)
    ensures SortBelow(k, nodes, byId, ids)[x] == if Below(nodes, ids, x) then SortedKids(nodes, byId, x) else k[x]
  {
  }

  /** The next sibling's step, at one children list. */
  lemma SortBelowNextAt(k: Kids, nodes: seq<SuiteFlatNode>, byId: Index, order: seq<Id>, i: nat, d: nat, x: Id)
    requires Indexed(nodes, byId) && k.Keys == byId.Keys && x in byId
    requires Level(nodes, order, d) && Distinct(order) && i < |order| && order[i] in byId
    requires ListedBelow(k, nodes, byId, order)
    ensures var q, k' := order[i], SortBelow(k, nodes, byId, order[..i]);
            var kids := ChildIds(nodes, Some(q));
            && x in k' && x in SortBelow(k', nodes, byId, kids) && x in SortBelow(k, nodes, byId, order[..i + 1])
            && (Below(nodes, kids, x) || x == q ==> k'[x] == ListedKids(nodes, byId, x))
            && (if x == q then SortedKids(nodes, byId, q) else SortBelow(k', nodes, byId, kids)[x])
               == SortBelow(k, nodes, byId, order[..i + 1])[x]
  {
    var q, k' := order[i], SortBelow(k, nodes, byId, order[..i]);
    assert Below(nodes, order, x) ==> k[x] == ListedKids(nodes, byId, x);
    hide Below, Level, Indexed, SortBelow, SortedKids, ListedKids, ListedBelow;
    BelowNext(nodes, byId, order, i, d, x);
    SortBelowAt(k, nodes, byId, order[..i], x);
    SortBelowAt(k, nodes, byId, order[..i + 1], x);
    SortBelowAt(k', nodes, byId, ChildIds(nodes, Some(q)), x);
  }

  lemma SortBelowKeys(k: Kids, nodes: seq<SuiteFlatNode>, byId: Index, ids: seq<Id>)
    requires Indexed(nodes, byId)
    ensures SortBelow(k, nodes, byId, ids).Keys == k.Keys
  {
  }

  /** Sorting below the children of order[i] and then its own children list extends the
      sorted part by one sibling. */
  lemma SortBelowNext(k: Kids, nodes: seq<SuiteFlatNode>, byId: Index, order: seq<Id>, i: nat, d: nat)
    requires Indexed(nodes, byId) && k.Keys == byId.Keys
    requires Level(nodes, order, d) && Distinct(order) && i < |order| && order[i] in byId
    requires ListedBelow(k, nodes, byId, order)
    ensures var q, k' := order[i], SortBelow(k, nodes, byId, order[..i]);
            && k'[q] == ListedKids(nodes, byId, q)
            && ListedBelow(k', nodes, byId, ChildIds(nodes, Some(q)))
            && SortBelow(k', nodes, byId, ChildIds(nodes, Some(q)))[q := SortedKids(nodes, byId, q)]
               == SortBelow(k, nodes, byId, order[..i + 1])
  {
    hide Below, Level, Indexed, SortBelow, SortedKids, ListedKids;
    var q, k' := order[i], SortBelow(k, nodes, byId, order[..i]);
    var kids := ChildIds(nodes, Some(q));
    var after := SortBelow(k', nodes, byId, kids)[q := SortedKids(nodes, byId, q)];
    SortBelowKeys(k, nodes, byId, order[..i]);
    SortBelowKeys(k, nodes, byId, order[..i + 1]);
    SortBelowKeys(k', nodes, byId, kids);
    SortBelowNextAt(k, nodes, byId, order, i, d, q);
    forall x | x in k'
      ensures Below(nodes, kids, x) ==> k'[x] == ListedKids(nodes, byId, x)
      ensures after[x] == SortBelow(k, nodes, byId, order[..i + 1])[x]
    {
      SortBelowNextAt(k, nodes, byId, order, i, d, x);
    }
  }

  /** Everything the recursion needs to know about the i-th sibling in sorted order. */
  lemma SiblingStep(k: Kids, nodes: seq<SuiteFlatNode>, byId: Index, ids: seq<Id>, i: nat, d: nat)
    requires Indexed(nodes, byId) && k.Keys == byId.Keys && Level(nodes, ids, d) && InListOrder(nodes, ids)
    requires ListedBelow(k, nodes, byId, ids) && i < |SortIds(nodes, ids)|
    ensures var order := SortIds(nodes, ids);
            var q, k' := order[i], SortBelow(k, nodes, byId, order[..i]);
            var kids := ChildIds(nodes, Some(q));
            && q in byId && Level(nodes, kids, d + 1) && InListOrder(nodes, kids) && d < |IdSet(nodes)|
            && (forall x :: x in kids ==> x in byId)
            && k'[q] == Pick(byId, kids) && ListedBelow(k', nodes, byId, kids)
            && SortBelow(k', nodes, byId, kids)[q := StableSort(k'[q], PositionOf)] ==
                SortBelow(k, nodes, byId, order[..i + 1])
  {
    var order := SortIds(nodes, ids);
    SortedSiblings(nodes, ids, d);
    assert order[i] in order && Level(nodes, [order[i]], d);
    ChildrenAreNextLevel(nodes, order[i], d);
    ChildIdsUpToInOrder(nodes, |nodes|, Some(order[i]));
    assert ListedBelow(k, nodes, byId, order);
    SortBelowNext(k, nodes, byId, order, i, d);
  }

  lemma SortedSiblings(nodes: seq<SuiteFlatNode>, ids: seq<Id>, d: nat)
    requires Level(nodes, ids, d) && InListOrder(nodes, ids)
    ensures Level(nodes, SortIds(nodes, ids), d) && Distinct(SortIds(nodes, ids))
    ensures forall x :: x in SortIds(nodes, ids) <==> x in ids
    ensures forall x :: Below(nodes, ids, x) <==> Below(nodes, SortIds(nodes, ids), x)
  {
    var order := SortIds(nodes, ids);
    SortIdsIsOrdered(nodes, ids);
    forall i, j | 0 <= i < j < |order| ensures order[i] != order[j] { assert Before(nodes, order[i], order[j]); }
    hide Rooted, Chain, ParentLinks;
    forall x ensures Below(nodes, ids, x) <==> Below(nodes, order, x) {}
  }

  lemma NotUnderEarlier(nodes: seq<SuiteFlatNode>, order: seq<Id>, i: nat, x: Id, d: nat)
    requires DistinctIds(nodes) && Level(nodes, order, d) && Distinct(order) && i < |order|
    requires Rooted(ParentLinks(nodes), x) && order[i] in Chain(ParentLinks(nodes), x)
    ensures !Under(ParentLinks(nodes), order[..i], x)
  {
    var p := ParentLinks(nodes);
    forall y | y in order[..i] && y in Chain(p, x) ensures false {
      assert y in order && order[i] in order;
      SameDepthOnChain(p, x, y, order[i]);
    }
  }

  lemma UnderPrefix(p: Parents, order: seq<Id>, i: nat)
    requires i < |order|
    ensures forall x :: Under(p, order[..i + 1], x) <==> Under(p, order[..i], x) || order[i] in Chain(p, x)
  {
    forall x ensures Under(p, order[..i + 1], x) <==> Under(p, order[..i], x) || order[i] in Chain(p, x) {
      assert forall y :: y in order[..i + 1] <==> y in order[..i] || y == order[i];
    }
  }

  lemma BelowChildIsBelow(nodes: seq<SuiteFlatNode>, ids: seq<Id>, x: Id, y: Id)
    requires DistinctIds(nodes) && x in ids && y in IdSet(nodes) && Below(nodes, SortedChildIds(nodes, Some(x)), y)
    ensures Below(nodes, ids, y)
  {
    SortedChildIdsProperties(nodes, Some(x));
    UnderChildren(nodes, x, y, SortedChildIds(nodes, Some(x)));
  }

  /** What the forest and the linked objects say about the i-th sibling. */
  lemma SiblingAt(nodes: seq<SuiteFlatNode>, byId: Index, ids: seq<Id>, d: nat, i: nat)
    requires Indexed(nodes, byId) && Level(nodes, ids, d) && i < |ids|
    requires forall x :: x in byId && Below(nodes, ids, x) ==> byId[x].children == SortedKids(nodes, byId, x)
    ensures var x, kids := ids[i], SortedChildIds(nodes, Some(ids[i]));
            && d < |IdSet(nodes)| && Level(nodes, kids, d + 1) && x in byId && (forall y :: y in kids ==> y in byId)
            && byId[x].children == Pick(byId, kids) && Copies(byId[x], Node(nodes, x))
            && Trees(nodes, ids, d)[i] == SuiteTree(x, Node(nodes, x).name, Node(nodes, x).position,
                                                    Node(nodes, x).caseCount, Trees(nodes, kids, d + 1))
            && forall y :: y in byId && Below(nodes, kids, y) ==> byId[y].children == SortedKids(nodes, byId, y)
  {
    var x := ids[i];
    assert x in ids;
    TreesAt(nodes, ids, d, i);
    ChainDistinct(ParentLinks(nodes), x);
    assert Below(nodes, ids, x);
    var kids := SortedChildIds(nodes, Some(x));
    SortedChildIdsProperties(nodes, Some(x));
    SortPicked(nodes, byId, ChildIds(nodes, Some(x)));
    hide Trees, Level;
    forall y | y in byId && Below(nodes, kids, y) ensures byId[y].children == SortedKids(nodes, byId, y) {
      BelowChildIsBelow(nodes, ids, x, y);
    }
  }

  /** Sorted children lists all the way down are the forest of values. */
  lemma {:induction false} SortedLinksRepresent(nodes: seq<SuiteFlatNode>, byId: Index, ids: seq<Id>, d: nat)
    requires Indexed(nodes, byId) && Level(nodes, ids, d)
    requires forall x :: x in byId && Below(nodes, ids, x) ==> byId[x].children == SortedKids(nodes, byId, x)
    ensures Represents(Pick(byId, ids), Trees(nodes, ids, d), byId.Values)
    decreases |IdSet(nodes)| - d
  {
    var ns, ts := Pick(byId, ids), Trees(nodes, ids, d);
    hide Below, Indexed, Trees, SortedKids, IdSet;
    forall i | 0 <= i < |ids|
      ensures ns[i] in byId.Values && Represents(ns[i].children, ts[i].children, byId.Values)
      ensures ns[i].id == ts[i].id && ns[i].name == ts[i].name
      ensures ns[i].position == ts[i].position && ns[i].caseCount == ts[i].caseCount
    {
      SiblingAt(nodes, byId, ids, d, i);
      SortedLinksRepresent(nodes, byId, SortedChildIds(nodes, Some(ids[i])), d + 1);
    }
  }

  ghost predicate Injective(byId: Index) {
    forall x, y :: x in byId && y in byId && x != y ==> byId[x] != byId[y]
  }

  lemma SortStart(k: Kids, nodes: seq<SuiteFlatNode>, byId: Index, ids: seq<Id>, d: nat)
    requires Indexed(nodes, byId) && Level(nodes, ids, d) && InListOrder(nodes, ids)
    ensures var order := SortIds(nodes, ids);
            && (forall x :: x in ids ==> x in byId) && (forall x :: x in order ==> x in byId)
            && StableSort(Pick(byId, ids), PositionOf) == Pick(byId, order)
            && SortBelow(k, nodes, byId, order[..0]) == k
            && SortBelow(k, nodes, byId, order[..|order|]) == SortBelow(k, nodes, byId, ids)
  {
    var order := SortIds(nodes, ids);
    SortPicked(nodes, byId, ids);
    SortedSiblings(nodes, ids, d);
    assert order[..|order|] == order;
    hide Below, Level, InListOrder, SortIds, ListedKids, SortedKids;
    BelowNone(k, nodes, byId);
  }

  lemma BelowNone(k: Kids, nodes: seq<SuiteFlatNode>, byId: Index)
    requires Indexed(nodes, byId)
    ensures SortBelow(k, nodes, byId, []) == k
  {
  }

  lemma KidsAt(byId: Index, x: Id)
    requires x in byId
    ensures KidsOf(byId)[x] == byId[x].children
  {
  }

  // ----- the program -----

  method SetChildren(node: SuiteTreeNode, children: seq<SuiteTreeNode>, ghost byId: Index, ghost x: Id)
    requires Injective(byId) && x in byId && node == byId[x]
    modifies node
    ensures KidsOf(byId) == old(KidsOf(byId))[x := children]
  {
    node.children := children;
  }

  /** Sorts one sibling list and, recursively, the children lists below it; objects that
      are not below the list are left alone.  The levels of the forest bound the recursion
      even when other parts of the list are cyclic. */
  method SortByPositionRecursive(ns: seq<SuiteTreeNode>, ghost nodes: seq<SuiteFlatNode>, ghost byId: Index,
                                 ghost ids: seq<Id>, ghost d: nat)
    returns (sorted: seq<SuiteTreeNode>)
    requires Indexed(nodes, byId) && Injective(byId) && Level(nodes, ids, d) && InListOrder(nodes, ids)
    requires ns == Pick(byId, ids) && ListedBelow(KidsOf(byId), nodes, byId, ids)
    modifies byId.Values
    ensures sorted == StableSort(ns, PositionOf)
    ensures KidsOf(byId) == SortBelow(old(KidsOf(byId)), nodes, byId, ids)
    decreases |IdSet(nodes)| - d
  {
    hide Injective, KidsOf, Indexed, Below, DistinctIds, IdSet, ParentLinks, SortIds, ChildIds, ChildIdsUpTo,
         InListOrder, Level, ListedBelow, SortBelow, StableSort, ListedKids, SortedKids, Rooted, Represents;
    ghost var k := KidsOf(byId);
    ghost var order := SortIds(nodes, ids);
    SortStart(k, nodes, byId, ids, d);
    sorted := StableSort(ns, PositionOf);
    var i := 0;
    while i < |sorted|
      invariant 0 <= i <= |sorted|
      invariant KidsOf(byId) == SortBelow(k, nodes, byId, order[..i])
    {
      ghost var kids := ChildIds(nodes, Some(order[i]));
      SiblingStep(k, nodes, byId, ids, i, d);
      var node := sorted[i];
      KidsAt(byId, order[i]);
      var children := SortByPositionRecursive(node.children, nodes, byId, kids, d + 1);
      SetChildren(node, children, byId, order[i]);
      i := i + 1;
    }
  }

  /** new Map(nodes.map(...)): one fresh object without children per node. */
  method IndexNodes(nodes: seq<SuiteFlatNode>) returns (byId: Index)
    requires DistinctIds(nodes)
    ensures Indexed(nodes, byId) && Injective(byId)
    ensures forall x :: x in byId ==> fresh(byId[x]) && byId[x].children == []
  {
    byId := map[];
    for k := 0 to |nodes|
      invariant byId.Keys == IdSet(nodes[..k])
      invariant forall i :: 0 <= i < k ==> nodes[i].id in byId && Copies(byId[nodes[i].id], nodes[i])
      invariant forall x :: x in byId ==> fresh(byId[x]) && byId[x].children == []
      invariant Injective(byId)
    {
      var node := new SuiteTreeNode(nodes[k]);
      assert nodes[k].id !in IdSet(nodes[..k]);
      assert nodes[..k + 1] == nodes[..k] + [nodes[k]];
      byId := byId[nodes[k].id := node];
    }
    assert nodes[..|nodes|] == nodes;
  }

  ghost function PickUpTo(nodes: seq<SuiteFlatNode>, byId: Index, k: nat, parent: Option<Id>): seq<SuiteTreeNode>
    requires Indexed(nodes, byId) && k <= |nodes|
  {
    ChildIdsUpToInOrder(nodes, k, parent);
    Pick(byId, ChildIdsUpTo(nodes, k, parent))
  }

  function LinkTarget(n: SuiteFlatNode, byId: Index): Option<Id> {
    if n.parentId.Some? && n.parentId.value in byId then n.parentId else None
  }

  lemma PickNext(nodes: seq<SuiteFlatNode>, byId: Index, k: nat, parent: Option<Id>)
    requires Indexed(nodes, byId) && k < |nodes|
    ensures nodes[k].id in byId
    ensures PickUpTo(nodes, byId, k + 1, parent) == PickUpTo(nodes, byId, k, parent)
              + if LinkTarget(nodes[k], byId) == parent then [byId[nodes[k].id]] else []
  {
    NodeAt(nodes, k);
  }

  lemma PickEnds(nodes: seq<SuiteFlatNode>, byId: Index, parent: Option<Id>)
    requires Indexed(nodes, byId)
    ensures PickUpTo(nodes, byId, 0, parent) == []
    ensures parent.Some? ==> PickUpTo(nodes, byId, |nodes|, parent) == ListedKids(nodes, byId, parent.value)
  {
  }

  /** The linking pass: each node joins its parent's list, or the roots when its parent is
      missing. */
  method LinkNodes(nodes: seq<SuiteFlatNode>, byId: Index) returns (roots: seq<SuiteTreeNode>)
    requires Indexed(nodes, byId) && Injective(byId)
    requires forall x :: x in byId ==> byId[x].children == []
    modifies byId.Values
    ensures roots == PickUpTo(nodes, byId, |nodes|, None)
    ensures forall x :: x in byId ==> byId[x].children == ListedKids(nodes, byId, x)
  {
    hide Indexed, DistinctIds, IdSet, PickUpTo, ListedKids;
    forall q: Option<Id> ensures PickUpTo(nodes, byId, 0, q) == []
                  ensures q.Some? ==> PickUpTo(nodes, byId, |nodes|, q) == ListedKids(nodes, byId, q.value) {
      PickEnds(nodes, byId, q);
    }
    roots := [];
    for k := 0 to |nodes|
      invariant roots == PickUpTo(nodes, byId, k, None)
      invariant forall x :: x in byId ==> byId[x].children == PickUpTo(nodes, byId, k, Some(x))
    {
      forall q: Option<Id> ensures nodes[k].id in byId
                    ensures PickUpTo(nodes, byId, k + 1, q) == PickUpTo(nodes, byId, k, q)
                      + if LinkTarget(nodes[k], byId) == q then [byId[nodes[k].id]] else [] {
        PickNext(nodes, byId, k, q);
      }
      PickNext(nodes, byId, k, None);
      var node := byId[nodes[k].id];
      if nodes[k].parentId.Some? && nodes[k].parentId.value in byId {
        var parent := byId[nodes[k].parentId.value];
        parent.children := parent.children + [node];
      } else {
        roots := roots + [node];
      }
    }
  }

  /** For any flat list with distinct ids, whatever its parent pointers, the assembler
      terminates and builds exactly Forest(nodes) out of fresh objects. */
  method AssembleSuiteTree(nodes: seq<SuiteFlatNode>) returns (roots: seq<SuiteTreeNode>,
                                                               ghost repr: set<SuiteTreeNode>)
    requires DistinctIds(nodes)
    ensures fresh(repr)
    ensures Represents(roots, Forest(nodes), repr)
  {
    var byId := IndexNodes(nodes);
    repr := byId.Values;
    roots := LinkNodes(nodes, byId);
    ghost var ids, order := ChildIds(nodes, None), SortedChildIds(nodes, None);
    RootsAreFirstLevel(nodes);
    ChildIdsUpToInOrder(nodes, |nodes|, None);
    SortPicked(nodes, byId, ids);
    SortedChildIdsProperties(nodes, None);
    roots := SortByPositionRecursive(roots, nodes, byId, ids, 0);
    forall x | x in byId && Below(nodes, order, x) ensures byId[x].children == SortedKids(nodes, byId, x) {
      assert Below(nodes, ids, x);
      assert KidsOf(byId)[x] == byId[x].children;
    }
    SortedLinksRepresent(nodes, byId, order, 0);
  }
}
