/** Service and client together: the tree shown for a stored forest. */
module SuiteTreeView {
  import opened Domain
  import opened ParentWalk
  import opened SuiteForest
  import opened FlattenSuiteTree
  import SuiteTreeRules
  import S = SuitesService

  /** A listing of the suite table: every row once, in any order. */
  ghost predicate Lists(nodes: seq<SuiteFlatNode>, suites: map<Id, S.Suite>) {
    && DistinctIds(nodes)
    && IdSet(nodes) == suites.Keys
    && forall n :: n in nodes ==>
         n.id in suites && n.name == suites[n.id].name && n.position == suites[n.id].position
         && n.parentId == suites[n.id].parentId
  }

  lemma ListingHasTableParents(nodes: seq<SuiteFlatNode>, db: S.SuiteDb)
    requires S.IsForest(db) && Lists(nodes, db.suites)
    ensures ReferencesClosed(nodes) && SuiteTreeRules.ParentsOf(EdgesOf(nodes)) == S.ParentMap(db.suites)
  {
    var p := S.ParentMap(db.suites);
    forall n | n in nodes && n.parentId.Some? ensures n.parentId.value in IdSet(nodes) {
      assert n.id in p;
    }
    EdgesAreLinks(nodes);
    forall x | x in IdSet(nodes) ensures ParentLinks(nodes)[x] == p[x] {
      assert Node(nodes, x) in nodes;
    }
    assert ParentLinks(nodes) == p;
  }

  /** After any sequence of requests, whatever the order of the listing, the flattened tree
      shows every stored suite exactly once under its current name, indented by the number
      of its ancestors. */
  lemma TreeShowsEverySuite(db: S.SuiteDb, ops: seq<S.SuiteOp>, nodes: seq<SuiteFlatNode>)
    requires S.IsForest(db) && Lists(nodes, S.Run(db, ops).suites)
    ensures var suites := S.Run(db, ops).suites;
            var f := Flatten(Forest(nodes), 0);
            && Distinct(EntryIds(f))
            && (forall x :: x in EntryIds(f) <==> x in suites)
            && (forall e :: e in f ==> e.id in suites && e.name == suites[e.id].name
                                       && e.depth == Depth(S.ParentMap(suites), e.id) - 1)
  {
    S.ForestSafety(db, ops);
    var after := S.Run(db, ops);
    ListingHasTableParents(nodes, after);
    EdgesAreLinks(nodes);
    ForestHoldsRooted(nodes);
    AcyclicIffAllRooted(ParentLinks(nodes));
    var f := Flatten(Forest(nodes), 0);
    forall e | e in f ensures e.id in after.suites && e.name == after.suites[e.id].name {
      assert Node(nodes, e.id) in nodes;
    }
  }
}
