/** The nested forest a flat suite list stands for: which trees the assembler must build
    for any list with distinct ids, dangling and cyclic parent pointers included. */
module SuiteForest {
  import opened Domain
  import opened ParentWalk
  import SuiteTreeRules

  datatype SuiteFlatNode = SuiteFlatNode(id: Id, name: string, position: int, caseCount: nat, parentId: Option<Id>)

  datatype SuiteTree = SuiteTree(id: Id, name: string, position: int, caseCount: nat, children: seq<SuiteTree>)

  ghost predicate DistinctIds(nodes: seq<SuiteFlatNode>) {
    forall i, j :: 0 <= i < j < |nodes| ==> nodes[i].id != nodes[j].id
  }

  function IdSet(nodes: seq<SuiteFlatNode>): set<Id> {
    set n | n in nodes :: n.id
  }

  ghost function IndexOf(nodes: seq<SuiteFlatNode>, x: Id): (i: nat)
    requires x in IdSet(nodes)
    ensures i < |nodes| && nodes[i].id == x
  {
    var i: nat :| i < |nodes| && nodes[i].id == x;
    i
  }

  /** A parent that is not in the list counts as no parent. */
  function EffectiveParent(nodes: seq<SuiteFlatNode>, n: SuiteFlatNode): Option<Id> {
    if n.parentId.Some? && n.parentId.value in IdSet(nodes) then n.parentId else None
  }

  ghost function Node(nodes: seq<SuiteFlatNode>, x: Id): SuiteFlatNode
    requires x in IdSet(nodes)
  {
    nodes[IndexOf(nodes, x)]
  }

  ghost function ParentLinks(nodes: seq<SuiteFlatNode>): Parents {
    map x | x in IdSet(nodes) :: EffectiveParent(nodes, Node(nodes, x))
  }

  // ----- stable sorting -----

  function Insert<T>(x: T, s: seq<T>, key: T -> int): seq<T> {
    if s == [] || key(x) <= key(s[0]) then [x] + s else [s[0]] + Insert(x, s[1..], key)
  }

  /** Array.prototype.sort by an integer key: equal keys keep their order. */
  function StableSort<T>(s: seq<T>, key: T -> int): seq<T> {
    if s == [] then [] else Insert(s[0], StableSort(s[1..], key), key)
  }

  ghost function Position(nodes: seq<SuiteFlatNode>, x: Id): int {
    if x in IdSet(nodes) then Node(nodes, x).position else 0
  }

  ghost function PositionIn(nodes: seq<SuiteFlatNode>): Id -> int {
    (x: Id) => Position(nodes, x)
  }

  ghost function SortIds(nodes: seq<SuiteFlatNode>, ids: seq<Id>): seq<Id> {
    StableSort(ids, PositionIn(nodes))
  }

  /** Sibling order: by position, ties by place in the flat list. */
  ghost predicate Before(nodes: seq<SuiteFlatNode>, a: Id, b: Id) {
    && a in IdSet(nodes) && b in IdSet(nodes)
    && (Position(nodes, a) < Position(nodes, b)
        || (Position(nodes, a) == Position(nodes, b) && IndexOf(nodes, a) < IndexOf(nodes, b)))
  }

  ghost predicate InListOrder(nodes: seq<SuiteFlatNode>, ids: seq<Id>) {
    && (forall x :: x in ids ==> x in IdSet(nodes))
    && (forall i, j :: 0 <= i < j < |ids| ==> IndexOf(nodes, ids[i]) < IndexOf(nodes, ids[j]))
  }

  ghost predicate InSiblingOrder(nodes: seq<SuiteFlatNode>, ids: seq<Id>) {
    && (forall x :: x in ids ==> x in IdSet(nodes))
    && (forall i, j :: 0 <= i < j < |ids| ==> Before(nodes, ids[i], ids[j]))
  }

  lemma {:induction false} InsertIsOrdered(nodes: seq<SuiteFlatNode>, x: Id, s: seq<Id>)
    requires x in IdSet(nodes) && InSiblingOrder(nodes, s)
    requires forall y :: y in s ==> IndexOf(nodes, x) < IndexOf(nodes, y)
    ensures InSiblingOrder(nodes, Insert(x, s, PositionIn(nodes)))
    ensures forall y :: y in Insert(x, s, PositionIn(nodes)) <==> y == x || y in s
  {
    var key := PositionIn(nodes);
    var r := Insert(x, s, key);
    if s != [] && key(x) > key(s[0]) {
      var t := s[1..];
      InsertIsOrdered(nodes, x, t);
      assert s == [s[0]] + t;
      forall i, j | 0 <= i < j < |r| ensures Before(nodes, r[i], r[j]) {
        if i == 0 { assert r[j] in Insert(x, t, key); }
      }
    } else {
      forall i, j | 0 <= i < j < |r| ensures Before(nodes, r[i], r[j]) {
        if i == 0 && j > 1 { assert Before(nodes, s[0], s[j - 1]); }
      }
    }
  }

  lemma {:induction false} SortIdsIsOrdered(nodes: seq<SuiteFlatNode>, ids: seq<Id>)
    requires InListOrder(nodes, ids)
    ensures InSiblingOrder(nodes, SortIds(nodes, ids))
    ensures forall y :: y in SortIds(nodes, ids) <==> y in ids
  {
    if ids != [] {
      SortIdsIsOrdered(nodes, ids[1..]);
      InsertIsOrdered(nodes, ids[0], SortIds(nodes, ids[1..]));
    }
  }

  // ----- children lists -----

  /** Ids of the first k nodes that have this effective parent, in list order. */
  function ChildIdsUpTo(nodes: seq<SuiteFlatNode>, k: nat, parent: Option<Id>): seq<Id>
    requires k <= |nodes|
  {
    if k == 0 then []
    else
      var before := ChildIdsUpTo(nodes, k - 1, parent);
      if EffectiveParent(nodes, nodes[k - 1]) == parent then before + [nodes[k - 1].id] else before
  }

  function ChildIds(nodes: seq<SuiteFlatNode>, parent: Option<Id>): seq<Id> {
    ChildIdsUpTo(nodes, |nodes|, parent)
  }

  ghost function SortedChildIds(nodes: seq<SuiteFlatNode>, parent: Option<Id>): seq<Id> {
    SortIds(nodes, ChildIds(nodes, parent))
  }

  lemma NodeAt(nodes: seq<SuiteFlatNode>, i: nat)
    requires DistinctIds(nodes) && i < |nodes|
    ensures nodes[i].id in IdSet(nodes) && IndexOf(nodes, nodes[i].id) == i
    ensures nodes[i].id in ParentLinks(nodes) && ParentLinks(nodes)[nodes[i].id] == EffectiveParent(nodes, nodes[i])
  {
    assert nodes[i] in nodes;
  }

  lemma {:induction false} ChildIdsUpToHas(nodes: seq<SuiteFlatNode>, k: nat, parent: Option<Id>, x: Id)
    requires k <= |nodes|
    ensures x in ChildIdsUpTo(nodes, k, parent) <==>
            exists i :: 0 <= i < k && nodes[i].id == x && EffectiveParent(nodes, nodes[i]) == parent
  {
    if k > 0 { ChildIdsUpToHas(nodes, k - 1, parent, x); }
  }

  lemma ChildIdsUpToHasNode(nodes: seq<SuiteFlatNode>, k: nat, parent: Option<Id>, x: Id)
    requires DistinctIds(nodes) && k <= |nodes|
    ensures x in ChildIdsUpTo(nodes, k, parent) <==>
              x in ParentLinks(nodes) && ParentLinks(nodes)[x] == parent && IndexOf(nodes, x) < k
  {
    ChildIdsUpToHas(nodes, k, parent, x);
    if x in ChildIdsUpTo(nodes, k, parent) {
      var i :| 0 <= i < k && nodes[i].id == x && EffectiveParent(nodes, nodes[i]) == parent;
      NodeAt(nodes, i);
    }
  }

  lemma AppendInOrder(nodes: seq<SuiteFlatNode>, ids: seq<Id>, x: Id)
    requires InListOrder(nodes, ids) && x in IdSet(nodes)
    requires forall i :: 0 <= i < |ids| ==> IndexOf(nodes, ids[i]) < IndexOf(nodes, x)
    ensures InListOrder(nodes, ids + [x])
  {
    hide IdSet;
  }

  lemma EarlierIds(nodes: seq<SuiteFlatNode>, k: nat, parent: Option<Id>, y: Id)
    requires DistinctIds(nodes) && k <= |nodes| && y in ChildIdsUpTo(nodes, k, parent)
    ensures y in IdSet(nodes) && IndexOf(nodes, y) < k
  {
    ChildIdsUpToHasNode(nodes, k, parent, y);
    InParentLinks(nodes, y);
  }

  lemma {:induction false} ChildIdsUpToInOrder(nodes: seq<SuiteFlatNode>, k: nat, parent: Option<Id>)
    requires DistinctIds(nodes) && k <= |nodes|
    ensures InListOrder(nodes, ChildIdsUpTo(nodes, k, parent))
  {
    hide DistinctIds, IdSet, EffectiveParent;
    if k > 0 {
      var before, last := ChildIdsUpTo(nodes, k - 1, parent), nodes[k - 1].id;
      ChildIdsUpToInOrder(nodes, k - 1, parent);
      NodeAt(nodes, k - 1);
      forall y | y in before ensures y in IdSet(nodes) && IndexOf(nodes, y) < k - 1 {
        EarlierIds(nodes, k - 1, parent, y);
      }
      hide InListOrder;
      AppendInOrder(nodes, before, last);
    }
  }

  lemma InParentLinks(nodes: seq<SuiteFlatNode>, x: Id)
    ensures x in ParentLinks(nodes) <==> x in IdSet(nodes)
  {
  }

  lemma SortedChildIdsProperties(nodes: seq<SuiteFlatNode>, parent: Option<Id>)
    requires DistinctIds(nodes)
    ensures InSiblingOrder(nodes, SortedChildIds(nodes, parent))
    ensures Distinct(SortedChildIds(nodes, parent)) && Distinct(ChildIds(nodes, parent))
    ensures forall x :: x in ChildIds(nodes, parent) <==> x in ParentLinks(nodes) && ParentLinks(nodes)[x] == parent
    ensures forall x :: x in SortedChildIds(nodes, parent) <==> x in ChildIds(nodes, parent)
  {
    ChildIdsUpToInOrder(nodes, |nodes|, parent);
    forall x ensures x in ChildIds(nodes, parent) <==> x in ParentLinks(nodes) && ParentLinks(nodes)[x] == parent {
      ChildIdsUpToHasNode(nodes, |nodes|, parent, x);
    }
    SortIdsIsOrdered(nodes, ChildIds(nodes, parent));
    var s := SortedChildIds(nodes, parent);
    forall i, j | 0 <= i < j < |s| ensures s[i] != s[j] { assert Before(nodes, s[i], s[j]); }
  }

  // ----- levels of the forest -----

  /** Rooted ids of one level: each has d proper ancestors. */
  ghost predicate Level(nodes: seq<SuiteFlatNode>, ids: seq<Id>, d: nat) {
    forall x :: x in ids ==> x in IdSet(nodes) && Rooted(ParentLinks(nodes), x) && Depth(ParentLinks(nodes), x) == d + 1
  }

  lemma {:induction false} DistinctFitsIn(c: seq<Id>, s: set<Id>)
    requires Distinct(c) && forall x :: x in c ==> x in s
    ensures |c| <= |s|
    decreases |c|
  {
    if c != [] {
      var n := |c| - 1;
      assert forall x :: x in c[..n] ==> x in c;
      DistinctFitsIn(c[..n], s - {c[n]});
    }
  }

  lemma ParentsAreClosed(nodes: seq<SuiteFlatNode>)
    ensures Closed(ParentLinks(nodes))
  {
  }

  lemma DepthFits(nodes: seq<SuiteFlatNode>, x: Id)
    requires x in IdSet(nodes) && Rooted(ParentLinks(nodes), x)
    ensures Depth(ParentLinks(nodes), x) <= |IdSet(nodes)|
  {
    var p := ParentLinks(nodes);
    ChainStaysInside(p, x);
    ChainDistinct(p, x);
    DistinctFitsIn(Chain(p, x), IdSet(nodes));
  }

  lemma ChildrenAreNextLevel(nodes: seq<SuiteFlatNode>, x: Id, d: nat)
    requires DistinctIds(nodes) && Level(nodes, [x], d)
    ensures Level(nodes, SortedChildIds(nodes, Some(x)), d + 1)
    ensures Level(nodes, ChildIds(nodes, Some(x)), d + 1)
    ensures d < |IdSet(nodes)|
  {
    assert x in [x];
    DepthFits(nodes, x);
    SortedChildIdsProperties(nodes, Some(x));
    forall y | y in ChildIds(nodes, Some(x))
      ensures Rooted(ParentLinks(nodes), y) && Depth(ParentLinks(nodes), y) == d + 2
    {
      ChainOfChild(ParentLinks(nodes), y, x);
    }
  }

  lemma RootsAreFirstLevel(nodes: seq<SuiteFlatNode>)
    requires DistinctIds(nodes)
    ensures Level(nodes, SortedChildIds(nodes, None), 0) && Level(nodes, ChildIds(nodes, None), 0)
  {
    SortedChildIdsProperties(nodes, None);
    forall y | y in ChildIds(nodes, None)
      ensures Rooted(ParentLinks(nodes), y) && Depth(ParentLinks(nodes), y) == 1
    {
      ChainOfRoot(ParentLinks(nodes), y);
    }
  }

  // ----- the forest -----

  ghost function Trees(nodes: seq<SuiteFlatNode>, ids: seq<Id>, d: nat): (ts: seq<SuiteTree>)
    requires DistinctIds(nodes) && Level(nodes, ids, d)
    ensures |ts| == |ids|
    decreases |IdSet(nodes)| - d, |ids|
  {
    if ids == [] then []
    else
      var x := ids[0];
      assert Level(nodes, [x], d);
      ChildrenAreNextLevel(nodes, x, d);
      var n := Node(nodes, x);
      [SuiteTree(x, n.name, n.position, n.caseCount, Trees(nodes, SortedChildIds(nodes, Some(x)), d + 1))]
      + Trees(nodes, ids[1..], d)
  }

  ghost function Forest(nodes: seq<SuiteFlatNode>): seq<SuiteTree>
    requires DistinctIds(nodes)
  {
    RootsAreFirstLevel(nodes);
    Trees(nodes, SortedChildIds(nodes, None), 0)
  }

  ghost function RootIds(ts: seq<SuiteTree>): (ids: seq<Id>)
    ensures |ids| == |ts| && forall i :: 0 <= i < |ts| ==> ids[i] == ts[i].id
  {
    seq(|ts|, i requires 0 <= i < |ts| => ts[i].id)
  }

  ghost predicate SameFields(t: SuiteTree, n: SuiteFlatNode) {
    t.id == n.id && t.name == n.name && t.position == n.position && t.caseCount == n.caseCount
  }

  /** What a sibling list and everything below it must be: precisely the nodes with this
      parent, in sibling order, with their own fields, and so on for their children. */
  ghost predicate Faithful(nodes: seq<SuiteFlatNode>, ts: seq<SuiteTree>, parent: Option<Id>) {
    && (forall x :: x in RootIds(ts) <==> x in ParentLinks(nodes) && ParentLinks(nodes)[x] == parent)
    && InSiblingOrder(nodes, RootIds(ts))
    && (forall i :: 0 <= i < |ts| ==> ts[i].id in IdSet(nodes) && SameFields(ts[i], Node(nodes, ts[i].id)))
    && (forall i :: 0 <= i < |ts| ==> Faithful(nodes, ts[i].children, Some(ts[i].id)))
  }

  lemma {:induction false} TreesAt(nodes: seq<SuiteFlatNode>, ids: seq<Id>, d: nat, i: nat)
    requires DistinctIds(nodes) && Level(nodes, ids, d) && i < |ids|
    ensures Level(nodes, SortedChildIds(nodes, Some(ids[i])), d + 1) && d < |IdSet(nodes)|
    ensures var n := Node(nodes, ids[i]);
            Trees(nodes, ids, d)[i] == SuiteTree(ids[i], n.name, n.position, n.caseCount,
                                                 Trees(nodes, SortedChildIds(nodes, Some(ids[i])), d + 1))
    decreases |ids|
  {
    assert Level(nodes, [ids[i]], d);
    ChildrenAreNextLevel(nodes, ids[i], d);
    if i > 0 {
      TreesAt(nodes, ids[1..], d, i - 1);
    }
  }

  lemma TreesHaveIds(nodes: seq<SuiteFlatNode>, ids: seq<Id>, d: nat)
    requires DistinctIds(nodes) && Level(nodes, ids, d)
    ensures RootIds(Trees(nodes, ids, d)) == ids
    ensures forall i :: 0 <= i < |ids| ==>
              Trees(nodes, ids, d)[i].id in IdSet(nodes) && SameFields(Trees(nodes, ids, d)[i], Node(nodes, ids[i]))
  {
    forall i | 0 <= i < |ids|
      ensures ids[i] in IdSet(nodes) && SameFields(Trees(nodes, ids, d)[i], Node(nodes, ids[i]))
    {
      assert ids[i] in ids;
      TreesAt(nodes, ids, d, i);
    }
  }

  lemma {:induction false} TreesAreFaithful(nodes: seq<SuiteFlatNode>, parent: Option<Id>, d: nat)
    requires DistinctIds(nodes) && Level(nodes, SortedChildIds(nodes, parent), d)
    ensures Faithful(nodes, Trees(nodes, SortedChildIds(nodes, parent), d), parent)
    decreases |IdSet(nodes)| - d
  {
    hide Level, DistinctIds, SortedChildIds, ChildIds, IdSet, ParentLinks, InSiblingOrder, Trees, SameFields;
    var ids := SortedChildIds(nodes, parent);
    var ts := Trees(nodes, ids, d);
    SortedChildIdsProperties(nodes, parent);
    TreesHaveIds(nodes, ids, d);
    forall i | 0 <= i < |ids| ensures Faithful(nodes, ts[i].children, Some(ids[i])) {
      TreesAt(nodes, ids, d, i);
      TreesAreFaithful(nodes, Some(ids[i]), d + 1);
    }
  }

  /** A sibling order has only one arrangement. */
  lemma {:induction false} OrderedIdsAgree(nodes: seq<SuiteFlatNode>, a: seq<Id>, b: seq<Id>)
    requires InSiblingOrder(nodes, a) && InSiblingOrder(nodes, b)
    requires forall x :: x in a <==> x in b
    ensures a == b
    decreases |a|
  {
    assert b != [] ==> b[0] in b;
    if a != [] {
      assert a[0] in b && b != [] && b[0] in a;
      assert a[0] == b[0];
      forall x ensures x in a[1..] <==> x in b[1..] {
        assert x in a <==> x == a[0] || x in a[1..];
        assert x in b <==> x == b[0] || x in b[1..];
        assert x in a[1..] ==> Before(nodes, a[0], x);
        assert x in b[1..] ==> Before(nodes, b[0], x);
      }
      OrderedIdsAgree(nodes, a[1..], b[1..]);
    }
  }

  lemma {:induction false} FaithfulIsUnique(nodes: seq<SuiteFlatNode>, a: seq<SuiteTree>, b: seq<SuiteTree>,
                                            parent: Option<Id>)
    requires Faithful(nodes, a, parent) && Faithful(nodes, b, parent)
    ensures a == b
    decreases a
  {
    OrderedIdsAgree(nodes, RootIds(a), RootIds(b));
    forall i | 0 <= i < |a| ensures a[i] == b[i] {
      assert RootIds(a)[i] == a[i].id && RootIds(b)[i] == b[i].id;
      FaithfulIsUnique(nodes, a[i].children, b[i].children, Some(a[i].id));
    }
  }

  /** Forest is the one forest in which every sibling list is complete, correctly parented
      and stably sorted. */
  lemma ForestIsTheFaithfulOne(nodes: seq<SuiteFlatNode>, ts: seq<SuiteTree>)
    requires DistinctIds(nodes)
    ensures Faithful(nodes, ts, None) <==> ts == Forest(nodes)
  {
    RootsAreFirstLevel(nodes);
    TreesAreFaithful(nodes, None, 0);
    if Faithful(nodes, ts, None) {
      FaithfulIsUnique(nodes, ts, Forest(nodes), None);
    }
  }

  // ----- nodes below a list of siblings -----

  ghost predicate Under(p: Parents, ids: seq<Id>, x: Id) {
    exists y :: y in ids && y in Chain(p, x)
  }

  ghost predicate Below(nodes: seq<SuiteFlatNode>, ids: seq<Id>, x: Id) {
    Rooted(ParentLinks(nodes), x) && Under(ParentLinks(nodes), ids, x)
  }

  lemma SameDepthOnChain(p: Parents, x: Id, a: Id, b: Id)
    requires Rooted(p, x) && a in Chain(p, x) && b in Chain(p, x) && Depth(p, a) == Depth(p, b)
    ensures a == b
  {
    hide Rooted, Chain;
    var i :| 0 <= i < Depth(p, x) && Chain(p, x)[i] == a;
    var j :| 0 <= j < Depth(p, x) && Chain(p, x)[j] == b;
    SubChain(p, x, i);
    SubChain(p, x, j);
  }

  lemma UnderChildren(nodes: seq<SuiteFlatNode>, q: Id, x: Id, ids: seq<Id>)
    requires DistinctIds(nodes) && q in IdSet(nodes) && x in IdSet(nodes) && Rooted(ParentLinks(nodes), x)
    requires forall y :: y in ids <==> y in ChildIds(nodes, Some(q))
    ensures Under(ParentLinks(nodes), ids, x) <==> q in Chain(ParentLinks(nodes), x) && x != q
  {
    SortedChildIdsProperties(nodes, Some(q));
    ParentsAreClosed(nodes);
    var p := ParentLinks(nodes);
    assert x in p;
    hide Chain, DistinctIds, IdSet, ParentLinks, ChildIds, SortedChildIds, InSiblingOrder;
    UnderAllChildren(p, q, x, ids);
  }

  /** Being below one of q's children is being below q without being q. */
  lemma UnderAllChildren(p: Parents, q: Id, x: Id, kids: seq<Id>)
    requires Closed(p) && Rooted(p, x) && x in p
    requires forall y :: y in kids <==> y in p && p[y] == Some(q)
    ensures Under(p, kids, x) <==> q in Chain(p, x) && x != q
  {
    hide Chain;
    var c := Chain(p, x);
    ChainStaysInside(p, x);
    ChainDistinct(p, x);
    if q in c && x != q {
      var i :| 0 <= i < |c| && c[i] == q;
      assert ParentOf(p, c[i - 1]) == Some(c[i]);
      assert c[i - 1] in kids;
    }
    if Under(p, kids, x) {
      var y :| y in kids && y in c;
      var i :| 0 <= i < |c| && c[i] == y;
      SubChain(p, x, i);
      ChainOfChild(p, y, q);
      ChainDistinct(p, q);
      assert c[i..][1] == q;
      assert c[0] == x && c[i + 1] == q;
    }
  }

  lemma UnderRootsIffRooted(nodes: seq<SuiteFlatNode>, x: Id)
    requires DistinctIds(nodes) && x in IdSet(nodes)
    ensures Rooted(ParentLinks(nodes), x) ==> Under(ParentLinks(nodes), SortedChildIds(nodes, None), x)
  {
    var p := ParentLinks(nodes);
    SortedChildIdsProperties(nodes, None);
    if Rooted(p, x) {
      ChainStaysInside(p, x);
      var c := Chain(p, x);
      assert c[|c| - 1] in SortedChildIds(nodes, None);
    }
  }

  // ----- the forest in terms of the list -----

  /** The node hangs below this parent: it names it, or, at the top, it names none or one that
      is not in the list. */
  ghost predicate HangsBelow(nodes: seq<SuiteFlatNode>, n: SuiteFlatNode, parent: Option<Id>) {
    match parent
    case Some(q) => n.parentId == Some(q)
    case None => n.parentId == None || forall m :: m in nodes ==> Some(m.id) != n.parentId
  }

  lemma NodeIsAt(nodes: seq<SuiteFlatNode>, a: nat)
    requires DistinctIds(nodes) && a < |nodes|
    ensures nodes[a].id in IdSet(nodes) && IndexOf(nodes, nodes[a].id) == a && Node(nodes, nodes[a].id) == nodes[a]
    ensures Position(nodes, nodes[a].id) == nodes[a].position
  {
    assert nodes[a] in nodes;
  }

  lemma HangsBelowIff(nodes: seq<SuiteFlatNode>, a: nat, parent: Option<Id>)
    requires DistinctIds(nodes) && a < |nodes| && (parent.Some? ==> parent.value in IdSet(nodes))
    ensures HangsBelow(nodes, nodes[a], parent) <==> ParentLinks(nodes)[nodes[a].id] == parent
  {
    NodeIsAt(nodes, a);
    var q := nodes[a].parentId;
    assert q.Some? ==> (q.value in IdSet(nodes) <==> exists m :: m in nodes && Some(m.id) == q);
  }

  /** What faithfulness says of one sibling list, told by the flat list alone: its trees are
      exactly the nodes that hang below the parent, with their fields, ordered by position and
      among equal positions by place in the list. */
  lemma FaithfulSpelledOut(nodes: seq<SuiteFlatNode>, ts: seq<SuiteTree>, parent: Option<Id>, a: nat, b: nat)
    requires DistinctIds(nodes) && Faithful(nodes, ts, parent) && a < |nodes| && b < |nodes|
    requires parent.Some? ==> parent.value in IdSet(nodes)
    ensures HangsBelow(nodes, nodes[a], parent) <==> exists i :: 0 <= i < |ts| && ts[i].id == nodes[a].id
    ensures forall i :: 0 <= i < |ts| && ts[i].id == nodes[a].id ==>
              && ts[i].name == nodes[a].name && ts[i].position == nodes[a].position
              && ts[i].caseCount == nodes[a].caseCount
    ensures forall i, j :: 0 <= i < j < |ts| && ts[i].id == nodes[a].id && ts[j].id == nodes[b].id ==>
              nodes[a].position < nodes[b].position || (nodes[a].position == nodes[b].position && a < b)
    ensures forall i :: 0 <= i < |ts| ==> Faithful(nodes, ts[i].children, Some(ts[i].id))
  {
    NodeIsAt(nodes, a);
    NodeIsAt(nodes, b);
    HangsBelowIff(nodes, a, parent);
    assert nodes[a].id in RootIds(ts) <==> exists i :: 0 <= i < |ts| && RootIds(ts)[i] == nodes[a].id;
    hide ParentLinks, IdSet, IndexOf, HangsBelow, DistinctIds;
    forall i, j | 0 <= i < j < |ts| && ts[i].id == nodes[a].id && ts[j].id == nodes[b].id
      ensures nodes[a].position < nodes[b].position || (nodes[a].position == nodes[b].position && a < b)
    {
      assert Before(nodes, RootIds(ts)[i], RootIds(ts)[j]);
    }
  }
}
