/** The tree rules behind suite creation and moves: ancestor chains over an edge list,
    the cycle test and the depth test. */
module SuiteTreeRules {
  import opened Domain
  import opened ParentWalk

  datatype SuiteEdge = SuiteEdge(id: Id, parentId: Option<Id>)

  const MAX_SUITE_DEPTH: nat := 3

  /** The Map built from an edge list: a later edge for the same id wins. */
  function ParentsOf(edges: seq<SuiteEdge>): Parents {
    if edges == [] then map[]
    else
      var last := edges[|edges| - 1];
      ParentsOf(edges[..|edges| - 1])[last.id := last.parentId]
  }

  /** The Map has an entry for each listed id, with the parent of the last edge listed for it. */
  lemma {:induction false} LastEdgeWins(edges: seq<SuiteEdge>, k: nat)
    requires k < |edges| && forall i :: k < i < |edges| ==> edges[i].id != edges[k].id
    ensures edges[k].id in ParentsOf(edges) && ParentsOf(edges)[edges[k].id] == edges[k].parentId
    ensures forall x :: x in ParentsOf(edges) ==> exists e :: e in edges && e.id == x
    decreases |edges|
  {
    OnlyListedIds(edges);
    if k < |edges| - 1 {
      LastEdgeWins(edges[..|edges| - 1], k);
    }
  }

  lemma {:induction false} OnlyListedIds(edges: seq<SuiteEdge>)
    ensures forall x :: x in ParentsOf(edges) ==> exists e :: e in edges && e.id == x
  {
    if edges != [] {
      var last := edges[|edges| - 1];
      OnlyListedIds(edges[..|edges| - 1]);
      assert last in edges;
      forall x | x in ParentsOf(edges) ensures exists e :: e in edges && e.id == x {
        if x != last.id {
          assert x in ParentsOf(edges[..|edges| - 1]);
          var e :| e in edges[..|edges| - 1] && e.id == x;
          assert e in edges;
        }
      }
    }
  }

  method AncestorChain(edges: seq<SuiteEdge>, startId: Id) returns (chain: seq<Id>)
    ensures IsAncestorChain(ParentsOf(edges), startId, chain)
    ensures chain == Chain(ParentsOf(edges), startId)
  {
    var parentOf: Parents := map[];
    for i := 0 to |edges|
      invariant parentOf == ParentsOf(edges[..i])
    {
      assert edges[..i + 1][..i] == edges[..i];
      parentOf := parentOf[edges[i].id := edges[i].parentId];
    }
    assert edges[..|edges|] == edges;
    chain := [];
    var seen: set<Id> := {};
    var current: Option<Id> := Some(startId);
    while current.Some? && current.value !in seen
      invariant chain + Walk(parentOf, current, seen) == Chain(parentOf, startId)
      decreases parentOf.Keys - seen, current.Some?
    {
      assert current.value !in parentOf ==> parentOf.Keys - (seen + {current.value}) == parentOf.Keys - seen;
      seen := seen + {current.value};
      chain := chain + [current.value];
      current := if current.value in parentOf then parentOf[current.value] else None;
    }
    ChainIsTheAncestorChain(parentOf, startId, chain);
  }

  method ExceedsMaxDepth(edges: seq<SuiteEdge>, parentId: Id) returns (b: bool)
    ensures b <==> Depth(ParentsOf(edges), parentId) + 1 > MAX_SUITE_DEPTH
  {
    var chain := AncestorChain(edges, parentId);
    b := |chain| >= MAX_SUITE_DEPTH;
  }

  method CreatesCycle(edges: seq<SuiteEdge>, suiteId: Id, newParentId: Id) returns (b: bool)
    ensures b <==> suiteId in Chain(ParentsOf(edges), newParentId)
    ensures Acyclic(ParentsOf(edges)) && suiteId in ParentsOf(edges) ==>
              (b <==> !Acyclic(ParentsOf(edges)[suiteId := Some(newParentId)]))
  {
    ghost var p := ParentsOf(edges);
    ChainDistinct(p, newParentId);
    if Acyclic(p) && suiteId in p {
      MoveCreatesCycleIff(p, suiteId, newParentId);
    }
    if suiteId == newParentId {
      return true;
    }
    var chain := AncestorChain(edges, newParentId);
    b := suiteId in chain;
  }
}
