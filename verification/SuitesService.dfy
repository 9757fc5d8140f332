/** The suites of one organisation: create, update and remove as transactions over the
    suite table, and what every sequence of them keeps. */
module SuitesService {
  import opened Domain
  import opened ParentWalk
  import opened SuiteTreeRules

  datatype Suite = Suite(id: Id, name: string, description: Option<string>,
                         parentId: Option<Id>, position: int, createdById: Id)

  datatype SuiteAudit = SuiteCreated(id: Id) | SuiteUpdated(id: Id) | SuiteDeleted(id: Id)

  datatype CreateSuiteDto = CreateSuiteDto(name: string, description: Option<string>,
                                           parentId: Option<Id>, position: Option<int>)

  /** An outer None is a field left out of the request; Some(None) is an explicit null. */
  datatype UpdateSuiteDto = UpdateSuiteDto(name: Option<string>, description: Option<Option<string>>,
                                           parentId: Option<Option<Id>>, position: Option<int>)

  datatype SuiteDb = SuiteDb(suites: map<Id, Suite>, nextId: Id, audit: seq<SuiteAudit>)

  function ParentMap(suites: map<Id, Suite>): Parents {
    map x | x in suites :: suites[x].parentId
  }

  ghost predicate IsForest(db: SuiteDb) {
    && Closed(ParentMap(db.suites))
    && Acyclic(ParentMap(db.suites))
    && (forall x :: x in db.suites ==> x < db.nextId && db.suites[x].id == x)
  }

  // ----- what each transaction does -----

  /** Why parentId cannot be used, in the order in which the reasons are looked for. */
  function ParentProblem(p: Parents, parentId: Id, moved: Option<Id>): Option<DomainError> {
    if parentId !in p then Some(NotFound)
    else if moved.Some? && moved.value in Chain(p, parentId) then Some(SuiteCycle)
    else if Depth(p, parentId) + 1 > MAX_SUITE_DEPTH then Some(SuiteTooDeep)
    else None
  }

  function Created(db: SuiteDb, userId: Id, dto: CreateSuiteDto): (SuiteDb, Result<Suite>) {
    var problem := if dto.parentId.Some? then ParentProblem(ParentMap(db.suites), dto.parentId.value, None) else None;
    if problem.Some? then (db, Err(problem.value))
    else
      var position := if dto.position.Some? then dto.position.value else 0;
      var suite := Suite(db.nextId, dto.name, dto.description, dto.parentId, position, userId);
      (SuiteDb(db.suites[suite.id := suite], db.nextId + 1, db.audit + [SuiteCreated(suite.id)]), Ok(suite))
  }

  function Patched(suite: Suite, dto: UpdateSuiteDto): Suite {
    Suite(suite.id,
          if dto.name.Some? then dto.name.value else suite.name,
          if dto.description.Some? then dto.description.value else suite.description,
          if dto.parentId.Some? then dto.parentId.value else suite.parentId,
          if dto.position.Some? then dto.position.value else suite.position,
          suite.createdById)
  }

  /** The parent rules apply only when the request really moves the suite under a suite. */
  function MoveProblem(db: SuiteDb, suiteId: Id, dto: UpdateSuiteDto): Option<DomainError>
    requires suiteId in db.suites
  {
    if dto.parentId.Some? && dto.parentId.value.Some? && dto.parentId.value != db.suites[suiteId].parentId
    then ParentProblem(ParentMap(db.suites), dto.parentId.value.value, Some(suiteId))
    else None
  }

  function Updated(db: SuiteDb, suiteId: Id, dto: UpdateSuiteDto): (SuiteDb, Result<Suite>) {
    if suiteId !in db.suites then (db, Err(NotFound))
    else if MoveProblem(db, suiteId, dto).Some? then (db, Err(MoveProblem(db, suiteId, dto).value))
    else
      var suite := Patched(db.suites[suiteId], dto);
      (SuiteDb(db.suites[suiteId := suite], db.nextId, db.audit + [SuiteUpdated(suiteId)]), Ok(suite))
  }

  ghost function Removed(db: SuiteDb, suiteId: Id): (SuiteDb, Result<()>) {
    if suiteId !in db.suites then (db, Err(NotFound))
    else (SuiteDb(db.suites - Subtree(ParentMap(db.suites), suiteId), db.nextId, db.audit + [SuiteDeleted(suiteId)]),
          Ok(()))
  }

  // ----- the service -----

  class SuitesService {
    var suites: map<Id, Suite>
    var nextId: Id
    var audit: seq<SuiteAudit>

    ghost function Db(): SuiteDb
      reads this
    {
      SuiteDb(suites, nextId, audit)
    }

    constructor ()
      ensures IsForest(Db()) && suites == map[] && audit == []
    {
      suites, nextId, audit := map[], 0, [];
      new;
      AcyclicIffAllRooted(map[]);
      forall x ensures Rooted(map[], x) { ChainOfRoot(map[], x); }
    }

    /** The rows come back in no particular order. */
    method LoadEdges() returns (edges: seq<SuiteEdge>)
      ensures ParentsOf(edges) == ParentMap(suites)
      ensures forall x :: (exists e :: e in edges && e.id == x) <==> x in suites
    {
      edges := [];
      var todo := suites.Keys;
      while todo != {}
        invariant todo <= suites.Keys
        invariant ParentsOf(edges) == map x | x in suites && x !in todo :: suites[x].parentId
        invariant forall e :: e in edges ==> e.id in suites
        invariant forall x :: x in suites && x !in todo ==> SuiteEdge(x, suites[x].parentId) in edges
      {
        var x :| x in todo;
        var e := SuiteEdge(x, suites[x].parentId);
        assert (edges + [e])[..|edges|] == edges;
        edges := edges + [e];
        todo := todo - {x};
      }
    }

    method AssertParentIsUsable(parentId: Id, excludeSuiteId: Option<Id>) returns (problem: Option<DomainError>)
      ensures problem == ParentProblem(ParentMap(suites), parentId, excludeSuiteId)
    {
      var edges := LoadEdges();
      if !(exists e :: e in edges && e.id == parentId) {
        return Some(NotFound);
      }
      if excludeSuiteId.Some? {
        var cycle := CreatesCycle(edges, excludeSuiteId.value, parentId);
        if cycle {
          return Some(SuiteCycle);
        }
      }
      var tooDeep := ExceedsMaxDepth(edges, parentId);
      return if tooDeep then Some(SuiteTooDeep) else None;
    }

    method Create(userId: Id, dto: CreateSuiteDto) returns (r: Result<Suite>)
      requires IsForest(Db())
      modifies this
      ensures (Db(), r) == Created(old(Db()), userId, dto)
      ensures IsForest(Db())
    {
      CreateKeepsForest(Db(), userId, dto);
      if dto.parentId.Some? {
        var problem := AssertParentIsUsable(dto.parentId.value, None);
        if problem.Some? {
          return Err(problem.value);
        }
      }
      var suite := Suite(nextId, dto.name, dto.description, dto.parentId,
                         if dto.position.Some? then dto.position.value else 0, userId);
      suites := suites[suite.id := suite];
      nextId := nextId + 1;
      audit := audit + [SuiteCreated(suite.id)];
      r := Ok(suite);
    }

    method Update(suiteId: Id, dto: UpdateSuiteDto) returns (r: Result<Suite>)
      requires IsForest(Db())
      modifies this
      ensures (Db(), r) == Updated(old(Db()), suiteId, dto)
      ensures IsForest(Db())
    {
      UpdateKeepsForest(Db(), suiteId, dto);
      if suiteId !in suites {
        return Err(NotFound);
      }
      var existing := suites[suiteId];
      if dto.parentId.Some? && dto.parentId.value != existing.parentId {
        if dto.parentId.value.Some? {
          var problem := AssertParentIsUsable(dto.parentId.value.value, Some(suiteId));
          if problem.Some? {
            return Err(problem.value);
          }
        }
      }
      var updated := existing;
      if dto.name.Some? { updated := updated.(name := dto.name.value); }
      if dto.description.Some? { updated := updated.(description := dto.description.value); }
      if dto.parentId.Some? { updated := updated.(parentId := dto.parentId.value); }
      if dto.position.Some? { updated := updated.(position := dto.position.value); }
      suites := suites[suiteId := updated];
      audit := audit + [SuiteUpdated(suiteId)];
      r := Ok(updated);
    }

    /** The foreign key deletes the children of every deleted row, level by level. */
    method Remove(suiteId: Id) returns (r: Result<()>)
      requires IsForest(Db())
      modifies this
      ensures (Db(), r) == Removed(old(Db()), suiteId)
      ensures IsForest(Db())
    {
      ghost var p := ParentMap(suites);
      RemoveSuiteKeepsForest(Db(), suiteId);
      if suiteId !in suites {
        return Err(NotFound);
      }
      AcyclicIffAllRooted(p);
      ChainDistinct(p, suiteId);
      var deleted, level := {suiteId}, {suiteId};
      while level != {}
        invariant level <= deleted <= Subtree(p, suiteId)
        invariant suiteId in deleted
        invariant forall x :: x in p && p[x].Some? && p[x].value in deleted - level ==> x in deleted
        decreases suites.Keys - deleted, level
      {
        var children := set x | x in suites && x !in deleted
                                && suites[x].parentId.Some? && suites[x].parentId.value in level;
        forall x | x in children ensures x in Subtree(p, suiteId) {
          ChainOfChild(p, x, p[x].value);
        }
        assert children != {} ==> suites.Keys - (deleted + children) < suites.Keys - deleted;
        assert children == {} ==> suites.Keys - (deleted + children) == suites.Keys - deleted;
        deleted, level := deleted + children, children;
      }
      SubtreeIsLeast(p, suiteId, deleted);
      assert deleted == Subtree(p, suiteId);
      suites := suites - deleted;
      audit := audit + [SuiteDeleted(suiteId)];
      r := Ok(());
    }
  }

  /** A set that holds s and every child of its members holds the whole subtree of s. */
  lemma SubtreeIsLeast(p: Parents, s: Id, d: set<Id>)
    requires s in d
    requires forall x :: x in p && p[x].Some? && p[x].value in d ==> x in d
    ensures Subtree(p, s) <= d
  {
    forall x | x in Subtree(p, s) ensures x in d {
      var c := Chain(p, x);
      WalkProperties(p, x, {});
      var i :| 0 <= i < |c| && c[i] == s;
      var k := i;
      while k > 0
        invariant 0 <= k <= i && c[k] in d
      {
        assert ParentOf(p, c[k - 1]) == Some(c[k]);
        k := k - 1;
      }
    }
  }

  // ----- every transaction keeps the forest -----

  lemma CreateKeepsForest(db: SuiteDb, userId: Id, dto: CreateSuiteDto)
    requires IsForest(db)
    ensures IsForest(Created(db, userId, dto).0)
  {
    var (db', r) := Created(db, userId, dto);
    if r.Ok? {
      var p := ParentMap(db.suites);
      AddKeepsForest(p, db.nextId, dto.parentId);
      assert ParentMap(db'.suites) == p[db.nextId := dto.parentId];
    }
  }

  lemma UpdateKeepsForest(db: SuiteDb, suiteId: Id, dto: UpdateSuiteDto)
    requires IsForest(db)
    ensures IsForest(Updated(db, suiteId, dto).0)
  {
    var (db', r) := Updated(db, suiteId, dto);
    if r.Ok? {
      var p := ParentMap(db.suites);
      assert ParentMap(db'.suites) == p[suiteId := r.value.parentId];
      if r.value.parentId != p[suiteId] {
        MoveKeepsForest(p, suiteId, r.value.parentId);
      } else {
        assert p[suiteId := r.value.parentId] == p;
      }
    }
  }

  lemma RemoveSuiteKeepsForest(db: SuiteDb, suiteId: Id)
    requires IsForest(db)
    ensures IsForest(Removed(db, suiteId).0)
  {
    var p := ParentMap(db.suites);
    RemoveKeepsForest(p, suiteId);
    assert suiteId in db.suites ==> ParentMap(Removed(db, suiteId).0.suites) == p - Subtree(p, suiteId);
  }

  datatype SuiteOp =
    | CreateOp(userId: Id, create: CreateSuiteDto)
    | UpdateOp(suiteId: Id, update: UpdateSuiteDto)
    | RemoveOp(suiteId: Id)

  ghost function Step(db: SuiteDb, op: SuiteOp): SuiteDb {
    match op
    case CreateOp(userId, dto) => Created(db, userId, dto).0
    case UpdateOp(suiteId, dto) => Updated(db, suiteId, dto).0
    case RemoveOp(suiteId) => Removed(db, suiteId).0
  }

  ghost function Run(db: SuiteDb, ops: seq<SuiteOp>): SuiteDb
    decreases |ops|
  {
    if ops == [] then db else Run(Step(db, ops[0]), ops[1..])
  }

  /** Whatever is requested, in any order, the suites stay an acyclic forest without
      dangling parents. */
  lemma {:induction false} ForestSafety(db: SuiteDb, ops: seq<SuiteOp>)
    requires IsForest(db)
    ensures IsForest(Run(db, ops))
    decreases |ops|
  {
    if ops != [] {
      match ops[0] {
        case CreateOp(userId, dto) => CreateKeepsForest(db, userId, dto);
        case UpdateOp(suiteId, dto) => UpdateKeepsForest(db, suiteId, dto);
        case RemoveOp(suiteId) => RemoveSuiteKeepsForest(db, suiteId);
      }
      ForestSafety(Step(db, ops[0]), ops[1..]);
    }
  }

  // ----- exact acceptance, depth law, depth limit -----

  /** When a move is accepted, told in terms of the forest it would produce. */
  lemma UpdateAcceptsIff(db: SuiteDb, suiteId: Id, dto: UpdateSuiteDto)
    requires IsForest(db) && suiteId in db.suites
    requires dto.parentId.Some? && dto.parentId.value.Some? && dto.parentId.value != db.suites[suiteId].parentId
    ensures var p, q := ParentMap(db.suites), dto.parentId.value.value;
            Updated(db, suiteId, dto).1.Ok? <==>
              q in db.suites && Acyclic(p[suiteId := Some(q)]) && Depth(p, q) < MAX_SUITE_DEPTH
  {
    MoveCreatesCycleIff(ParentMap(db.suites), suiteId, dto.parentId.value.value);
  }

  /** An accepted update moves every suite below the updated one by the same number of
      levels, and no other suite; the suite itself lands within the limit if it was moved
      under another one. */
  lemma UpdateDepthLaw(db: SuiteDb, suiteId: Id, dto: UpdateSuiteDto, x: Id)
    requires IsForest(db) && x in db.suites && Updated(db, suiteId, dto).1.Ok?
    ensures var p, p' := ParentMap(db.suites), ParentMap(Updated(db, suiteId, dto).0.suites);
            var np := p'[suiteId];
            && Depth(p', suiteId) == DepthOption(p, np) + 1
            && Depth(p', x) == Depth(p, x) + (if suiteId in Chain(p, x)
                                              then Depth(p', suiteId) - Depth(p, suiteId) else 0)
            && (np != p[suiteId] ==> Depth(p', suiteId) <= MAX_SUITE_DEPTH)
  {
    var p, p' := ParentMap(db.suites), ParentMap(Updated(db, suiteId, dto).0.suites);
    var np := p'[suiteId];
    AcyclicIffAllRooted(p);
    assert p' == p[suiteId := np];
    if np == p[suiteId] {
      assert p' == p;
      if np.Some? { ChainOfChild(p, suiteId, np.value); } else { ChainOfRoot(p, suiteId); }
    } else {
      MoveKeepsForest(p, suiteId, np);
      ChainDistinct(p, suiteId);
      MoveChain(p, suiteId, np, suiteId);
      MoveChain(p, suiteId, np, x);
    }
  }

  ghost predicate WithinDepth(db: SuiteDb) {
    WithinLimit(ParentMap(db.suites), MAX_SUITE_DEPTH)
  }

  lemma CreateKeepsDepth(db: SuiteDb, userId: Id, dto: CreateSuiteDto)
    requires IsForest(db) && WithinDepth(db)
    ensures WithinDepth(Created(db, userId, dto).0)
  {
    var (db', r) := Created(db, userId, dto);
    if r.Ok? {
      var p := ParentMap(db.suites);
      AddKeepsForest(p, db.nextId, dto.parentId);
      assert ParentMap(db'.suites) == p[db.nextId := dto.parentId];
      forall x | x in db'.suites ensures Depth(ParentMap(db'.suites), x) <= MAX_SUITE_DEPTH {
        assert x != db.nextId ==> x in p;
      }
    }
  }

  lemma RemoveKeepsDepth(db: SuiteDb, suiteId: Id)
    requires IsForest(db) && WithinDepth(db)
    ensures WithinDepth(Removed(db, suiteId).0)
  {
    var p := ParentMap(db.suites);
    RemoveKeepsForest(p, suiteId);
    var p' := ParentMap(Removed(db, suiteId).0.suites);
    if suiteId in db.suites {
      assert p' == p - Subtree(p, suiteId);
      forall x | x in p' ensures Depth(p', x) <= MAX_SUITE_DEPTH { assert x in p; }
    }
  }

  /** The rules for an update look at the new parent only, so the limit of three
      levels survives exactly when the request names no parent or the height of the moved
      subtree fits below the one it names. */
  lemma UpdateKeepsDepthIff(db: SuiteDb, suiteId: Id, dto: UpdateSuiteDto)
    requires IsForest(db) && WithinDepth(db) && Updated(db, suiteId, dto).1.Ok?
    ensures var p := ParentMap(db.suites);
            WithinDepth(Updated(db, suiteId, dto).0) <==>
              dto.parentId.None? || DepthOption(p, dto.parentId.value) + Height(p, suiteId) <= MAX_SUITE_DEPTH
  {
    var p := ParentMap(db.suites);
    var np := Updated(db, suiteId, dto).1.value.parentId;
    assert ParentMap(Updated(db, suiteId, dto).0.suites) == p[suiteId := np];
    if dto.parentId.None? {
      assert p[suiteId := np] == p;
    } else {
      AcyclicIffAllRooted(p);
      if np != p[suiteId] {
        MoveKeepsForest(p, suiteId, np);
      } else if np.Some? {
        ChainOfChild(p, suiteId, np.value);
        ChainDistinct(p, suiteId);
      }
      MoveKeepsLimitIff(p, suiteId, np, MAX_SUITE_DEPTH);
    }
  }

  function Row(id: Id, parentId: Option<Id>): Suite {
    Suite(id, "", None, parentId, 0, 0)
  }

  const NO_SUITES: SuiteDb := SuiteDb(map[], 0, [])

  function CreateUnder(parentId: Option<Id>): SuiteOp {
    CreateOp(0, CreateSuiteDto("", None, parentId, None))
  }

  /** Requests that build two trees of two levels each. */
  const FOUR_CREATES: seq<SuiteOp> := [CreateUnder(None), CreateUnder(Some(0)), CreateUnder(None), CreateUnder(Some(2))]

  const TWO_PAIRS: SuiteDb :=
    SuiteDb(map[0 := Row(0, None), 1 := Row(1, Some(0)), 2 := Row(2, None), 3 := Row(3, Some(2))], 4,
            [SuiteCreated(0), SuiteCreated(1), SuiteCreated(2), SuiteCreated(3)])

  lemma TwoPairsChains()
    ensures var p := ParentMap(TWO_PAIRS.suites);
            && Chain(p, 0) == [0] && Chain(p, 1) == [1, 0] && Chain(p, 2) == [2] && Chain(p, 3) == [3, 2]
            && Acyclic(p) && Closed(p)
  {
    var p := ParentMap(TWO_PAIRS.suites);
    assert ParentOf(p, 0) == None && ParentOf(p, 1) == Some(0) && ParentOf(p, 2) == None && ParentOf(p, 3) == Some(2);
    hide Chain, Rooted;
    ChainOfRoot(p, 0);
    ChainOfRoot(p, 2);
    ChainOfChild(p, 1, 0);
    ChainOfChild(p, 3, 2);
    forall x ensures Rooted(p, x) {
      if x !in p { ChainOfRoot(p, x); }
    }
    AcyclicIffAllRooted(p);
  }

  lemma CreateUnderRoot(db: SuiteDb, parentId: Id)
    requires parentId in db.suites && db.suites[parentId].parentId == None
    ensures Step(db, CreateUnder(Some(parentId))) ==
            SuiteDb(db.suites[db.nextId := Row(db.nextId, Some(parentId))], db.nextId + 1,
                    db.audit + [SuiteCreated(db.nextId)])
  {
    ChainOfRoot(ParentMap(db.suites), parentId);
  }

  lemma TwoPairsAreReachable()
    ensures Run(NO_SUITES, FOUR_CREATES) == TWO_PAIRS
  {
    var a := SuiteDb(map[0 := Row(0, None)], 1, [SuiteCreated(0)]);
    var b := SuiteDb(map[0 := Row(0, None), 1 := Row(1, Some(0))], 2, [SuiteCreated(0), SuiteCreated(1)]);
    var c := SuiteDb(b.suites[2 := Row(2, None)], 3, b.audit + [SuiteCreated(2)]);
    assert Step(NO_SUITES, CreateUnder(None)) == a;
    CreateUnderRoot(a, 0);
    assert Step(a, CreateUnder(Some(0))).suites == b.suites && Step(a, CreateUnder(Some(0))).audit == b.audit;
    assert Step(b, CreateUnder(None)) == c;
    CreateUnderRoot(c, 2);
    hide Step, CreateUnder;
    assert FOUR_CREATES[1..][1..][1..][1..] == [];
    assert Step(c, FOUR_CREATES[3]).audit == TWO_PAIRS.audit;
    assert Run(c, FOUR_CREATES[1..][1..][1..]) == TWO_PAIRS;
    assert Run(b, FOUR_CREATES[1..][1..]) == TWO_PAIRS;
    assert Run(a, FOUR_CREATES[1..]) == TWO_PAIRS;
  }

  /** Four creations followed by one accepted move: two levels moved under a suite at depth
      2 end at depth 4. */
  lemma UpdateCanExceedLimit()
    ensures var before, dto := Run(NO_SUITES, FOUR_CREATES), UpdateSuiteDto(None, None, Some(Some(1)), None);
            && IsForest(before) && WithinDepth(before) && Updated(before, 2, dto).1.Ok?
            && Depth(ParentMap(Updated(before, 2, dto).0.suites), 3) == 4 && !WithinDepth(Updated(before, 2, dto).0)
  {
    hide Chain, Acyclic, Run;
    var dto := UpdateSuiteDto(None, None, Some(Some(1)), None);
    TwoPairsAreReachable();
    TwoPairsChains();
    assert IsForest(TWO_PAIRS) && WithinDepth(TWO_PAIRS);
    assert Updated(TWO_PAIRS, 2, dto).1.Ok?;
    UpdateDepthLaw(TWO_PAIRS, 2, dto, 3);
    assert 3 in ParentMap(Updated(TWO_PAIRS, 2, dto).0.suites);
    assert !WithinDepth(Updated(TWO_PAIRS, 2, dto).0);
  }

  /** A removal deletes the suite with everything below it and touches no other row. */
  lemma RemoveCascades(db: SuiteDb, suiteId: Id, x: Id)
    requires IsForest(db) && suiteId in db.suites
    ensures var p, after := ParentMap(db.suites), Removed(db, suiteId).0.suites;
            && (x in after <==> x in db.suites && suiteId !in Chain(p, x))
            && (x in after ==> after[x] == db.suites[x])
            && (forall q :: q in after ==> after[q].parentId != Some(suiteId))
  {
    RemoveSuiteKeepsForest(db, suiteId);
    ChainDistinct(ParentMap(db.suites), suiteId);
    var after := Removed(db, suiteId).0.suites;
    forall q | q in after ensures after[q].parentId != Some(suiteId) {
      assert q in ParentMap(after);
    }
  }

  // ----- what a request stores -----

  /** The value of a field after an update: the requested one if it was named. */
  ghost predicate KeptOrNamed<T>(named: Option<T>, before: T, after: T) {
    match named
    case Some(value) => after == value
    case None => after == before
  }

  /** Everything an update does: which errors it reports, and for an accepted one that only
      the row of the suite changes, that it keeps its id and creator, and that each field is
      the requested one if the request names it and the old one otherwise. */
  lemma UpdateStoresRequest(db: SuiteDb, suiteId: Id, dto: UpdateSuiteDto)
    ensures var (after, r) := Updated(db, suiteId, dto);
            var p := ParentMap(db.suites);
            var moves := suiteId in db.suites && dto.parentId.Some? && dto.parentId.value.Some?
                         && dto.parentId.value != db.suites[suiteId].parentId;
            && (r.Err? ==> after == db)
            && (r == Err(NotFound) <==> suiteId !in db.suites || (moves && dto.parentId.value.value !in db.suites))
            && (r == Err(SuiteCycle) <==>
                  moves && dto.parentId.value.value in db.suites && suiteId in Chain(p, dto.parentId.value.value))
            && (r == Err(SuiteTooDeep) <==>
                  moves && dto.parentId.value.value in db.suites && suiteId !in Chain(p, dto.parentId.value.value)
                  && Depth(p, dto.parentId.value.value) >= 3)
            && (r.Err? ==> r.error in {NotFound, SuiteCycle, SuiteTooDeep})
            && (r.Ok? ==>
                  && suiteId in db.suites && after.suites == db.suites[suiteId := r.value]
                  && after.nextId == db.nextId && after.audit == db.audit + [SuiteUpdated(suiteId)]
                  && var before := db.suites[suiteId];
                     && r.value.id == before.id && r.value.createdById == before.createdById
                     && KeptOrNamed(dto.name, before.name, r.value.name)
                     && KeptOrNamed(dto.description, before.description, r.value.description)
                     && KeptOrNamed(dto.parentId, before.parentId, r.value.parentId)
                     && KeptOrNamed(dto.position, before.position, r.value.position))
  {
    hide Chain;
  }

  /** Everything a creation does: which errors it reports, and for an accepted one that a row
      with a fresh id holds the requested fields, with position 0 if none was named. */
  lemma CreateStoresRequest(db: SuiteDb, userId: Id, dto: CreateSuiteDto)
    ensures var (after, r) := Created(db, userId, dto);
            && (r.Err? ==> after == db && dto.parentId.Some? && r.error in {NotFound, SuiteTooDeep})
            && (r == Err(NotFound) <==> dto.parentId.Some? && dto.parentId.value !in db.suites)
            && (r == Err(SuiteTooDeep) <==>
                  dto.parentId.Some? && dto.parentId.value in db.suites
                  && Depth(ParentMap(db.suites), dto.parentId.value) >= 3)
            && (r.Ok? ==>
                  && after.suites == db.suites[db.nextId := r.value] && after.nextId == db.nextId + 1
                  && after.audit == db.audit + [SuiteCreated(db.nextId)]
                  && r.value.id == db.nextId && r.value.createdById == userId
                  && r.value.name == dto.name && r.value.description == dto.description
                  && r.value.parentId == dto.parentId && KeptOrNamed(dto.position, 0, r.value.position))
  {
    hide Chain;
  }

  /** A removal needs the suite, logs it, and gives no id back. */
  lemma RemoveStoresDeletion(db: SuiteDb, suiteId: Id)
    ensures var (after, r) := Removed(db, suiteId);
            && (r == Err(NotFound) <==> suiteId !in db.suites) && (r.Err? ==> after == db && r == Err(NotFound))
            && (r.Ok? ==> after.nextId == db.nextId && after.audit == db.audit + [SuiteDeleted(suiteId)])
  {
    hide Subtree;
  }
}
