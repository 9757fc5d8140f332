/** The client's flattened view of the suite tree, and the round trip from a flat list
    through the nested forest and back. */
module FlattenSuiteTree {
  import opened Domain
  import opened ParentWalk
  import opened SuiteForest
  import SuiteTreeRules

  datatype Entry = Entry(id: Id, name: string, depth: nat)

  function Flatten(ts: seq<SuiteTree>, depth: nat): seq<Entry>
    decreases ts
  {
    if ts == [] then []
    else [Entry(ts[0].id, ts[0].name, depth)] + Flatten(ts[0].children, depth + 1) + Flatten(ts[1..], depth)
  }

  ghost function EntryIds(f: seq<Entry>): (ids: seq<Id>)
    ensures |ids| == |f| && forall i :: 0 <= i < |f| ==> ids[i] == f[i].id
  {
    seq(|f|, i requires 0 <= i < |f| => f[i].id)
  }

  /** Entries carry their node's name and its level, counted from depth for level d. */
  ghost predicate EntriesMatch(nodes: seq<SuiteFlatNode>, f: seq<Entry>, d: nat, depth: nat) {
    forall e :: e in f ==>
      && e.id in IdSet(nodes) && e.name == Node(nodes, e.id).name
      && e.depth == depth + Depth(ParentLinks(nodes), e.id) - (d + 1)
  }

  lemma BelowHead(nodes: seq<SuiteFlatNode>, ids: seq<Id>, d: nat, x: Id)
    requires DistinctIds(nodes) && Level(nodes, ids, d) && Distinct(ids) && ids != [] && x in IdSet(nodes)
    ensures var kids := SortedChildIds(nodes, Some(ids[0]));
            && (Below(nodes, ids, x) <==> x == ids[0] || Below(nodes, kids, x) || Below(nodes, ids[1..], x))
            && !(x == ids[0] && Below(nodes, kids, x)) && !(x == ids[0] && Below(nodes, ids[1..], x))
            && !(Below(nodes, kids, x) && Below(nodes, ids[1..], x))
  {
    var p, q, rest := ParentLinks(nodes), ids[0], ids[1..];
    var kids := SortedChildIds(nodes, Some(q));
    assert q in ids && forall y :: y in ids <==> y == q || y in rest;
    ChainDistinct(p, x);
    SortedChildIdsProperties(nodes, Some(q));
    if Rooted(p, x) {
      UnderChildren(nodes, q, x, kids);
      if q in Chain(p, x) && Under(p, rest, x) {
        var y :| y in rest && y in Chain(p, x);
        SameDepthOnChain(p, x, q, y);
      }
    }
  }

  lemma FlattenHead(nodes: seq<SuiteFlatNode>, ids: seq<Id>, d: nat, depth: nat)
    requires DistinctIds(nodes) && Level(nodes, ids, d) && ids != []
    ensures var kids := SortedChildIds(nodes, Some(ids[0]));
            && d < |IdSet(nodes)| && ids[0] in IdSet(nodes) && Depth(ParentLinks(nodes), ids[0]) == d + 1
            && Level(nodes, kids, d + 1) && Level(nodes, ids[1..], d) && Distinct(kids)
            && Flatten(Trees(nodes, ids, d), depth)
               == [Entry(ids[0], Node(nodes, ids[0]).name, depth)]
                  + Flatten(Trees(nodes, kids, d + 1), depth + 1) + Flatten(Trees(nodes, ids[1..], d), depth)
  {
    assert ids[0] in ids && Level(nodes, [ids[0]], d);
    ChildrenAreNextLevel(nodes, ids[0], d);
    SortedChildIdsProperties(nodes, Some(ids[0]));
    assert Trees(nodes, ids, d)[1..] == Trees(nodes, ids[1..], d);
  }

  lemma {:induction false} FlattenMatches(nodes: seq<SuiteFlatNode>, ids: seq<Id>, d: nat, depth: nat)
    requires DistinctIds(nodes) && Level(nodes, ids, d)
    ensures EntriesMatch(nodes, Flatten(Trees(nodes, ids, d), depth), d, depth)
    decreases |IdSet(nodes)| - d, |ids|
  {
    if ids != [] {
      FlattenHead(nodes, ids, d, depth);
      FlattenMatches(nodes, SortedChildIds(nodes, Some(ids[0])), d + 1, depth + 1);
      FlattenMatches(nodes, ids[1..], d, depth);
    }
  }

  lemma {:induction false} FlattenTrees(nodes: seq<SuiteFlatNode>, ids: seq<Id>, d: nat, depth: nat)
    requires DistinctIds(nodes) && Level(nodes, ids, d) && Distinct(ids)
    ensures var f := Flatten(Trees(nodes, ids, d), depth);
            && Distinct(EntryIds(f))
            && forall x :: x in EntryIds(f) <==> x in IdSet(nodes) && Below(nodes, ids, x)
    decreases |IdSet(nodes)| - d, |ids|
  {
    hide Below, IdSet, Trees, Flatten, Level, DistinctIds, SortedChildIds, ParentLinks;
    if ids != [] {
      var q := ids[0];
      var kids := SortedChildIds(nodes, Some(q));
      FlattenHead(nodes, ids, d, depth);
      var a, b := Flatten(Trees(nodes, kids, d + 1), depth + 1), Flatten(Trees(nodes, ids[1..], d), depth);
      FlattenTrees(nodes, kids, d + 1, depth + 1);
      FlattenTrees(nodes, ids[1..], d, depth);
      forall x | x in IdSet(nodes)
        ensures Below(nodes, ids, x) <==> x == q || Below(nodes, kids, x) || Below(nodes, ids[1..], x)
        ensures !(x == q && Below(nodes, kids, x)) && !(x == q && Below(nodes, ids[1..], x))
        ensures !(Below(nodes, kids, x) && Below(nodes, ids[1..], x))
      {
        BelowHead(nodes, ids, d, x);
      }
      JoinEntries(Entry(q, Node(nodes, q).name, depth), a, b);
    } else {
      NothingBelowNone(nodes, d, depth);
    }
  }

  lemma NothingBelowNone(nodes: seq<SuiteFlatNode>, d: nat, depth: nat)
    requires DistinctIds(nodes)
    ensures Level(nodes, [], d) && Flatten(Trees(nodes, [], d), depth) == []
    ensures forall x :: !Below(nodes, [], x)
  {
  }

  lemma JoinEntries(head: Entry, a: seq<Entry>, b: seq<Entry>)
    requires Distinct(EntryIds(a)) && Distinct(EntryIds(b))
    ensures var ids := EntryIds([head] + a + b);
            && (forall x :: x in ids <==> x == head.id || x in EntryIds(a) || x in EntryIds(b))
            && ((head.id !in EntryIds(a) && head.id !in EntryIds(b)
                 && forall x :: !(x in EntryIds(a) && x in EntryIds(b))) ==> Distinct(ids))
  {
    var ids, x, y := EntryIds([head] + a + b), EntryIds(a), EntryIds(b);
    assert ids == [head.id] + x + y;
    if head.id !in x && head.id !in y && forall z :: !(z in x && z in y) {
      forall i, j | 0 <= i < j < |ids| ensures ids[i] != ids[j] {
        assert j <= |x| ==> ids[j] == x[j - 1] && ids[j] in x;
        assert j > |x| ==> ids[j] == y[j - 1 - |x|] && ids[j] in y;
        assert 0 < i <= |x| ==> ids[i] == x[i - 1] && ids[i] in x;
        assert i > |x| ==> ids[i] == y[i - 1 - |x|] && ids[i] in y;
      }
    }
  }

  /** Which nodes the tree holds: every node whose parent chain ends, once, one level below
      its parent, and no other. */
  lemma ForestHoldsRooted(nodes: seq<SuiteFlatNode>)
    requires DistinctIds(nodes)
    ensures var f := Flatten(Forest(nodes), 0);
            && EntriesMatch(nodes, f, 0, 0)
            && Distinct(EntryIds(f))
            && forall x :: x in EntryIds(f) <==> x in IdSet(nodes) && Rooted(ParentLinks(nodes), x)
  {
    RootsAreFirstLevel(nodes);
    SortedChildIdsProperties(nodes, None);
    FlattenTrees(nodes, SortedChildIds(nodes, None), 0, 0);
    FlattenMatches(nodes, SortedChildIds(nodes, None), 0, 0);
    forall x | x in IdSet(nodes)
      ensures Below(nodes, SortedChildIds(nodes, None), x) <==> Rooted(ParentLinks(nodes), x)
    {
      UnderRootsIffRooted(nodes, x);
    }
  }

  /** A listed node is missing from the tree exactly when it is on or below a cycle. */
  lemma MissingIffCyclic(nodes: seq<SuiteFlatNode>, x: Id)
    requires DistinctIds(nodes) && x in IdSet(nodes)
    ensures x !in EntryIds(Flatten(Forest(nodes), 0)) <==>
            exists y :: y in Chain(ParentLinks(nodes), x) && OnCycle(ParentLinks(nodes), y)
  {
    ForestHoldsRooted(nodes);
    RootedIffNoCycleAbove(ParentLinks(nodes), x);
  }

  // ----- round trip -----

  function EdgesOf(nodes: seq<SuiteFlatNode>): (edges: seq<SuiteTreeRules.SuiteEdge>)
    ensures |edges| == |nodes|
  {
    seq(|nodes|, i requires 0 <= i < |nodes| => SuiteTreeRules.SuiteEdge(nodes[i].id, nodes[i].parentId))
  }

  function NodeIds(nodes: seq<SuiteFlatNode>): (ids: seq<Id>)
    ensures |ids| == |nodes|
  {
    seq(|nodes|, i requires 0 <= i < |nodes| => nodes[i].id)
  }

  ghost predicate ReferencesClosed(nodes: seq<SuiteFlatNode>) {
    forall n :: n in nodes && n.parentId.Some? ==> n.parentId.value in IdSet(nodes)
  }

  lemma {:induction false} EdgesUpTo(nodes: seq<SuiteFlatNode>, k: nat)
    requires DistinctIds(nodes) && k <= |nodes|
    ensures var p := SuiteTreeRules.ParentsOf(EdgesOf(nodes)[..k]);
            && (forall i :: 0 <= i < k ==> nodes[i].id in p && p[nodes[i].id] == nodes[i].parentId)
            && (forall x :: x in p ==> exists i :: 0 <= i < k && nodes[i].id == x)
  {
    if k > 0 {
      EdgesUpTo(nodes, k - 1);
      assert EdgesOf(nodes)[..k][..k - 1] == EdgesOf(nodes)[..k - 1];
    }
  }

  lemma EdgeIsLink(nodes: seq<SuiteFlatNode>, i: nat)
    requires DistinctIds(nodes) && ReferencesClosed(nodes) && i < |nodes|
    ensures var p := SuiteTreeRules.ParentsOf(EdgesOf(nodes));
            && nodes[i].id in p && nodes[i].id in ParentLinks(nodes)
            && p[nodes[i].id] == ParentLinks(nodes)[nodes[i].id]
  {
    EdgesUpTo(nodes, |nodes|);
    assert EdgesOf(nodes)[..|nodes|] == EdgesOf(nodes);
    NodeAt(nodes, i);
    assert nodes[i] in nodes;
  }

  lemma EdgesAreLinks(nodes: seq<SuiteFlatNode>)
    requires DistinctIds(nodes) && ReferencesClosed(nodes)
    ensures SuiteTreeRules.ParentsOf(EdgesOf(nodes)) == ParentLinks(nodes)
  {
    hide DistinctIds, ReferencesClosed, ParentLinks, IdSet;
    var p := SuiteTreeRules.ParentsOf(EdgesOf(nodes));
    forall x ensures x in p <==> x in ParentLinks(nodes)
             ensures x in p ==> p[x] == ParentLinks(nodes)[x] {
      if x in p {
        var i := EdgeOrigin(nodes, x);
        EdgeIsLink(nodes, i);
      }
      if x in ParentLinks(nodes) {
        InParentLinks(nodes, x);
        EdgeIsLink(nodes, IndexOf(nodes, x));
      }
    }
  }

  lemma EdgeOrigin(nodes: seq<SuiteFlatNode>, x: Id) returns (i: nat)
    requires DistinctIds(nodes) && x in SuiteTreeRules.ParentsOf(EdgesOf(nodes))
    ensures i < |nodes| && nodes[i].id == x
  {
    EdgesUpTo(nodes, |nodes|);
    assert EdgesOf(nodes)[..|nodes|] == EdgesOf(nodes);
    i :| 0 <= i < |nodes| && nodes[i].id == x;
  }

  lemma {:induction false} DistinctMultiset(s: seq<Id>, x: Id)
    requires Distinct(s)
    ensures multiset(s)[x] == if x in s then 1 else 0
  {
    if s != [] {
      assert s == [s[0]] + s[1..];
      DistinctMultiset(s[1..], x);
    }
  }

  lemma SameElementsSameMultiset(a: seq<Id>, b: seq<Id>)
    requires Distinct(a) && Distinct(b) && forall x :: x in a <==> x in b
    ensures multiset(a) == multiset(b)
  {
    forall x ensures multiset(a)[x] == multiset(b)[x] {
      DistinctMultiset(a, x);
      DistinctMultiset(b, x);
    }
  }

  lemma NodeIdsAreIdSet(nodes: seq<SuiteFlatNode>)
    requires DistinctIds(nodes)
    ensures Distinct(NodeIds(nodes)) && forall x :: x in NodeIds(nodes) <==> x in IdSet(nodes)
  {
    forall x ensures x in NodeIds(nodes) <==> x in IdSet(nodes) {
      if x in IdSet(nodes) { assert NodeIds(nodes)[IndexOf(nodes, x)] == x; }
      if x in NodeIds(nodes) { var i :| 0 <= i < |nodes| && NodeIds(nodes)[i] == x; assert nodes[i] in nodes; }
    }
  }

  /** On an acyclic list with closed references, flattening the assembled tree gives back
      every suite exactly once, at the depth its ancestor chain has. */
  lemma RoundTrip(nodes: seq<SuiteFlatNode>)
    requires DistinctIds(nodes) && ReferencesClosed(nodes)
    requires Acyclic(SuiteTreeRules.ParentsOf(EdgesOf(nodes)))
    ensures var f := Flatten(Forest(nodes), 0);
            && multiset(EntryIds(f)) == multiset(NodeIds(nodes))
            && forall e :: e in f ==>
                 && e.id in IdSet(nodes) && e.name == Node(nodes, e.id).name
                 && e.depth == |Chain(SuiteTreeRules.ParentsOf(EdgesOf(nodes)), e.id)| - 1
  {
    EdgesAreLinks(nodes);
    ForestHoldsRooted(nodes);
    AcyclicIffAllRooted(ParentLinks(nodes));
    NodeIdsAreIdSet(nodes);
    hide Rooted, Acyclic, Forest, Flatten, IdSet, ParentLinks, DistinctIds;
    SameElementsSameMultiset(EntryIds(Flatten(Forest(nodes), 0)), NodeIds(nodes));
  }

  // ----- back from the indentation -----

  /** A tree without positions and counts. */
  datatype Outline = Outline(id: Id, name: string, children: seq<Outline>)

  function OutlineOf(ts: seq<SuiteTree>): seq<Outline>
    decreases ts
  {
    if ts == [] then []
    else [Outline(ts[0].id, ts[0].name, OutlineOf(ts[0].children))] + OutlineOf(ts[1..])
  }

  /** How many entries at the front are indented further than depth. */
  function Deeper(f: seq<Entry>, depth: nat): (k: nat)
    ensures k <= |f|
  {
    if f == [] || f[0].depth <= depth then 0 else 1 + Deeper(f[1..], depth)
  }

  /** Reads an indented list back: an entry owns the further indented ones right behind it. */
  function Nest(f: seq<Entry>, depth: nat): seq<Outline>
    decreases |f|
  {
    if f == [] then []
    else
      var k := Deeper(f[1..], depth);
      [Outline(f[0].id, f[0].name, Nest(f[1..][..k], depth + 1))] + Nest(f[1..][k..], depth)
  }

  lemma {:induction false} FlattenIsIndented(ts: seq<SuiteTree>, depth: nat)
    ensures forall e :: e in Flatten(ts, depth) ==> e.depth >= depth
    ensures ts != [] ==> Flatten(ts, depth) != [] && Flatten(ts, depth)[0].depth == depth
    decreases ts
  {
    if ts != [] {
      FlattenIsIndented(ts[0].children, depth + 1);
      FlattenIsIndented(ts[1..], depth);
    }
  }

  lemma {:induction false} DeeperStops(a: seq<Entry>, b: seq<Entry>, depth: nat)
    requires forall e :: e in a ==> e.depth > depth
    requires b != [] ==> b[0].depth <= depth
    ensures Deeper(a + b, depth) == |a|
    decreases |a|
  {
    if a == [] {
      assert a + b == b;
    } else {
      assert a[0] in a && (a + b)[1..] == a[1..] + b;
      DeeperStops(a[1..], b, depth);
    }
  }

  /** Flattening loses nothing: every suite is followed by its descendants, in order, so the
      tree can be read back from order and indentation alone. */
  lemma {:induction false} NestUndoesFlatten(ts: seq<SuiteTree>, depth: nat)
    ensures Nest(Flatten(ts, depth), depth) == OutlineOf(ts)
    decreases ts
  {
    if ts != [] {
      var head := Entry(ts[0].id, ts[0].name, depth);
      var kids, rest := Flatten(ts[0].children, depth + 1), Flatten(ts[1..], depth);
      var f := Flatten(ts, depth);
      assert f[0] == head && f[1..] == kids + rest;
      FlattenIsIndented(ts[0].children, depth + 1);
      FlattenIsIndented(ts[1..], depth);
      DeeperStops(kids, rest, depth);
      assert (kids + rest)[..|kids|] == kids && (kids + rest)[|kids|..] == rest;
      NestUndoesFlatten(ts[0].children, depth + 1);
      NestUndoesFlatten(ts[1..], depth);
    }
  }
}
