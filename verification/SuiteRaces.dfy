/** Creations and moves of suites whose check and write are separate steps, interleaved
    freely with each other and with every other request: when the suites stay a forest, and
    when they stay within three levels. */
module SuiteRaces {
  import opened Domain
  import opened ParentWalk
  import opened SuiteTreeRules
  import opened SuitesService

  type CallId = nat

  /** A request whose checks have passed and that is not written yet. */
  datatype Checked =
    | Updating(suiteId: Id, update: UpdateSuiteDto)
    | Creating(userId: Id, create: CreateSuiteDto)

  datatype Desk = Desk(db: SuiteDb, open: map<CallId, Checked>)

  datatype Event =
    | ChecksUpdate(call: CallId, suiteId: Id, update: UpdateSuiteDto)
    | ChecksCreate(call: CallId, userId: Id, create: CreateSuiteDto)
    | Writes(call: CallId)
    | Whole(op: SuiteOp)

  /** The row that the write stores. */
  function RowOf(db: SuiteDb, u: Checked): Suite
    requires u.Updating? ==> u.suiteId in db.suites
  {
    match u
    case Updating(suiteId, dto) => Patched(db.suites[suiteId], dto)
    case Creating(userId, dto) =>
      Suite(db.nextId, dto.name, dto.description, dto.parentId,
            if dto.position.Some? then dto.position.value else 0, userId)
  }

  /** The updated row is gone, or the foreign key finds the named parent missing. */
  predicate Refused(db: SuiteDb, u: Checked) {
    || (u.Updating? && u.suiteId !in db.suites)
    || (RowOf(db, u).parentId.Some? && RowOf(db, u).parentId.value !in db.suites)
  }

  function Written(db: SuiteDb, u: Checked): SuiteDb {
    if Refused(db, u) then db
    else
      var row := RowOf(db, u);
      match u
      case Updating(suiteId, _) =>
        SuiteDb(db.suites[suiteId := row], db.nextId, db.audit + [SuiteUpdated(suiteId)])
      case Creating(_, _) =>
        SuiteDb(db.suites[db.nextId := row], db.nextId + 1, db.audit + [SuiteCreated(db.nextId)])
  }

  function CreateProblem(db: SuiteDb, dto: CreateSuiteDto): Option<DomainError> {
    if dto.parentId.Some? then ParentProblem(ParentMap(db.suites), dto.parentId.value, None) else None
  }

  /** An event whose call is not at that point, or is refused there, changes nothing. */
  ghost function Next(s: Desk, e: Event): Desk {
    match e
    case ChecksUpdate(call, suiteId, dto) =>
      if call in s.open || suiteId !in s.db.suites || MoveProblem(s.db, suiteId, dto).Some? then s
      else s.(open := s.open[call := Updating(suiteId, dto)])
    case ChecksCreate(call, userId, dto) =>
      if call in s.open || CreateProblem(s.db, dto).Some? then s
      else s.(open := s.open[call := Creating(userId, dto)])
    case Writes(call) => if call !in s.open then s else Desk(Written(s.db, s.open[call]), s.open - {call})
    case Whole(op) => s.(db := Step(s.db, op))
  }

  /** The state after the first k events. */
  ghost function StateAt(s: Desk, events: seq<Event>, k: nat): Desk
    requires k <= |events|
  {
    if k == 0 then s else Next(StateAt(s, events, k - 1), events[k - 1])
  }

  /** A write that is going to change the table. */
  predicate Lands(s: Desk, e: Event) {
    e.Writes? && e.call in s.open && !Refused(s.db, s.open[e.call])
  }

  // ----- cycles -----

  /** The updated suite is not above the parent it gets at this moment. */
  ghost predicate ClosesNoCycle(db: SuiteDb, u: Checked)
    requires !Refused(db, u)
  {
    u.Updating? && RowOf(db, u).parentId.Some? ==>
      u.suiteId !in Chain(ParentMap(db.suites), RowOf(db, u).parentId.value)
  }

  /** A write that is not refused passes the cycle test of this moment. */
  ghost predicate PassesCycleTest(s: Desk, e: Event) {
    Lands(s, e) ==> ClosesNoCycle(s.db, s.open[e.call])
  }

  lemma ParentsAfterWrite(db: SuiteDb, u: Checked)
    requires !Refused(db, u)
    ensures ParentMap(Written(db, u).suites) ==
            ParentMap(db.suites)[if u.Updating? then u.suiteId else db.nextId := RowOf(db, u).parentId]
  {
  }

  /** The exact guard of one write. */
  lemma WriteKeepsForestIff(db: SuiteDb, u: Checked)
    requires IsForest(db) && !Refused(db, u)
    ensures IsForest(Written(db, u)) <==> ClosesNoCycle(db, u)
  {
    var p, np := ParentMap(db.suites), RowOf(db, u).parentId;
    ParentsAfterWrite(db, u);
    hide Chain, Acyclic, Closed;
    if u.Creating? {
      AddKeepsForest(p, db.nextId, np);
    } else if np.Some? && u.suiteId in Chain(p, np.value) {
      MoveCreatesCycleIff(p, u.suiteId, np.value);
    } else {
      MoveKeepsForest(p, u.suiteId, np);
    }
  }

  lemma NextKeepsForestIff(s: Desk, e: Event)
    requires IsForest(s.db)
    ensures IsForest(Next(s, e).db) <==> PassesCycleTest(s, e)
  {
    hide IsForest, Chain, MoveProblem, CreateProblem, ClosesNoCycle;
    if Lands(s, e) { WriteKeepsForestIff(s.db, s.open[e.call]); }
    if e.Whole? {
      ForestSafety(s.db, [e.op]);
      OneStep(s.db, e.op);
    }
  }

  lemma OneStep(db: SuiteDb, op: SuiteOp)
    ensures Run(db, [op]) == Step(db, op)
  {
    assert [op][1..] == [];
  }

  /** The suites are a forest after every prefix. */
  ghost predicate ForestThroughout(s: Desk, events: seq<Event>) {
    forall k :: 0 <= k <= |events| ==> IsForest(StateAt(s, events, k).db)
  }

  ghost predicate EachPassesCycleTest(s: Desk, events: seq<Event>) {
    forall k :: 0 <= k < |events| ==> PassesCycleTest(StateAt(s, events, k), events[k])
  }

  /** Over every interleaving: the suites are a forest after every prefix if and only if
      each write would still pass the cycle test when it is made. */
  lemma ForestThroughoutIff(s: Desk, events: seq<Event>)
    requires IsForest(s.db)
    ensures ForestThroughout(s, events) <==> EachPassesCycleTest(s, events)
  {
    hide IsForest, PassesCycleTest, Next;
    if ForestThroughout(s, events) {
      forall k | 0 <= k < |events| ensures PassesCycleTest(StateAt(s, events, k), events[k]) {
        assert IsForest(StateAt(s, events, k).db) && IsForest(StateAt(s, events, k + 1).db);
        NextKeepsForestIff(StateAt(s, events, k), events[k]);
      }
    }
    if EachPassesCycleTest(s, events) {
      forall k | 0 <= k <= |events| ensures IsForest(StateAt(s, events, k).db) {
        PassingKeepsForest(s, events, k);
      }
    }
  }

  lemma {:induction false} PassingKeepsForest(s: Desk, events: seq<Event>, k: nat)
    requires IsForest(s.db) && k <= |events|
    requires forall j :: 0 <= j < k ==> PassesCycleTest(StateAt(s, events, j), events[j])
    ensures IsForest(StateAt(s, events, k).db)
  {
    hide IsForest, PassesCycleTest, Next;
    if k > 0 {
      PassingKeepsForest(s, events, k - 1);
      NextKeepsForestIff(StateAt(s, events, k - 1), events[k - 1]);
    }
  }

  // ----- three levels -----

  /** What the write stores fits below the parent it gets at this moment. */
  ghost predicate WriteFits(db: SuiteDb, u: Checked)
    requires !Refused(db, u)
  {
    var p := ParentMap(db.suites);
    DepthOption(p, RowOf(db, u).parentId) + (if u.Updating? then Height(p, u.suiteId) else 1) <= MAX_SUITE_DEPTH
  }

  /** The exact depth guard of one write. */
  lemma WriteKeepsDepthIff(db: SuiteDb, u: Checked)
    requires IsForest(db) && WithinDepth(db) && !Refused(db, u) && ClosesNoCycle(db, u)
    ensures WithinDepth(Written(db, u)) <==> WriteFits(db, u)
  {
    var p, np := ParentMap(db.suites), RowOf(db, u).parentId;
    ParentsAfterWrite(db, u);
    if u.Updating? {
      hide Chain, Acyclic, Closed, Height;
      MoveKeepsForest(p, u.suiteId, np);
      MoveKeepsLimitIff(p, u.suiteId, np, MAX_SUITE_DEPTH);
    } else {
      AddKeepsForest(p, db.nextId, np);
      hide Chain, Acyclic, Closed, Height;
      NewLeafDepth(p, db.nextId, np);
    }
  }

  lemma NewLeafDepth(p: Parents, x: Id, np: Option<Id>)
    requires WithinLimit(p, MAX_SUITE_DEPTH) && Depth(p[x := np], x) == DepthOption(p, np) + 1
    requires forall y :: y in p && y != x ==> Depth(p[x := np], y) == Depth(p, y)
    ensures WithinLimit(p[x := np], MAX_SUITE_DEPTH) <==> DepthOption(p, np) + 1 <= MAX_SUITE_DEPTH
  {
    assert x in p[x := np];
  }

  /** Of the requests that take effect at once only an update can exceed the limit. */
  ghost predicate StepFits(db: SuiteDb, op: SuiteOp) {
    op.UpdateOp? && Updated(db, op.suiteId, op.update).1.Ok? && op.update.parentId.Some? ==>
      DepthOption(ParentMap(db.suites), op.update.parentId.value) + Height(ParentMap(db.suites), op.suiteId)
      <= MAX_SUITE_DEPTH
  }

  lemma StepKeepsDepthIff(db: SuiteDb, op: SuiteOp)
    requires IsForest(db) && WithinDepth(db)
    ensures WithinDepth(Step(db, op)) <==> StepFits(db, op)
  {
    hide IsForest, WithinDepth, Height, DepthOption;
    match op
    case CreateOp(userId, dto) => CreateKeepsDepth(db, userId, dto);
    case RemoveOp(suiteId) => RemoveKeepsDepth(db, suiteId);
    case UpdateOp(suiteId, dto) => if Updated(db, suiteId, dto).1.Ok? { UpdateKeepsDepthIff(db, suiteId, dto); }
  }

  /** The event passes the cycle test and what it stores fits. */
  ghost predicate Fits(s: Desk, e: Event) {
    && PassesCycleTest(s, e)
    && (Lands(s, e) ==> WriteFits(s.db, s.open[e.call]))
    && (e.Whole? ==> StepFits(s.db, e.op))
  }

  ghost predicate IsLowForest(db: SuiteDb) {
    IsForest(db) && WithinDepth(db)
  }

  lemma NextKeepsDepthIff(s: Desk, e: Event)
    requires IsLowForest(s.db)
    ensures IsLowForest(Next(s, e).db) <==> Fits(s, e)
  {
    hide IsForest, WithinDepth, MoveProblem, CreateProblem, Written, Step, WriteFits, StepFits, ClosesNoCycle;
    NextKeepsForestIff(s, e);
    if Lands(s, e) && PassesCycleTest(s, e) { WriteKeepsDepthIff(s.db, s.open[e.call]); }
    if e.Whole? { StepKeepsDepthIff(s.db, e.op); }
    if e.Writes? && e.call in s.open && !Lands(s, e) { RefusedChangesNothing(s.db, s.open[e.call]); }
  }

  lemma RefusedChangesNothing(db: SuiteDb, u: Checked)
    requires Refused(db, u)
    ensures Written(db, u) == db
  {
  }

  /** The suites are a forest of at most three levels after every prefix. */
  ghost predicate LowThroughout(s: Desk, events: seq<Event>) {
    forall k :: 0 <= k <= |events| ==> IsLowForest(StateAt(s, events, k).db)
  }

  ghost predicate EachFits(s: Desk, events: seq<Event>) {
    forall k :: 0 <= k < |events| ==> Fits(StateAt(s, events, k), events[k])
  }

  /** Over every interleaving: the suites are a forest of at most three levels after every
      prefix if and only if each write passes the cycle test and fits when it is made. */
  lemma LowThroughoutIff(s: Desk, events: seq<Event>)
    requires IsLowForest(s.db)
    ensures LowThroughout(s, events) <==> EachFits(s, events)
  {
    hide IsLowForest, Fits, Next;
    if LowThroughout(s, events) {
      forall k | 0 <= k < |events| ensures Fits(StateAt(s, events, k), events[k]) {
        assert IsLowForest(StateAt(s, events, k).db) && IsLowForest(StateAt(s, events, k + 1).db);
        NextKeepsDepthIff(StateAt(s, events, k), events[k]);
      }
    }
    if EachFits(s, events) {
      forall k | 0 <= k <= |events| ensures IsLowForest(StateAt(s, events, k).db) {
        FittingStaysLow(s, events, k);
      }
    }
  }

  lemma {:induction false} FittingStaysLow(s: Desk, events: seq<Event>, k: nat)
    requires IsLowForest(s.db) && k <= |events|
    requires forall j :: 0 <= j < k ==> Fits(StateAt(s, events, j), events[j])
    ensures IsLowForest(StateAt(s, events, k).db)
  {
    hide IsLowForest, Fits, Next;
    if k > 0 {
      FittingStaysLow(s, events, k - 1);
      NextKeepsDepthIff(StateAt(s, events, k - 1), events[k - 1]);
    }
  }

  // ----- two moves that overlap -----

  /** Two top-level suites. */
  const TWO_ROOTS: Desk := Desk(SuiteDb(map[0 := Row(0, None), 1 := Row(1, None)], 2, []), map[])

  function Under(parentId: Id): UpdateSuiteDto {
    UpdateSuiteDto(None, None, Some(Some(parentId)), None)
  }

  /** Each suite is moved under the other one; both are checked before either is written. */
  const CROSSING: seq<Event> := [ChecksUpdate(0, 0, Under(1)), ChecksUpdate(1, 1, Under(0)), Writes(0), Writes(1)]

  lemma TwoRootsAreForest()
    ensures IsForest(TWO_ROOTS.db)
    ensures Chain(ParentMap(TWO_ROOTS.db.suites), 0) == [0] && Chain(ParentMap(TWO_ROOTS.db.suites), 1) == [1]
  {
    hide Chain, Acyclic, Rooted;
    var p := ParentMap(TWO_ROOTS.db.suites);
    forall x: Id ensures Rooted(p, x) && Chain(p, x) == [x] { ChainOfRoot(p, x); }
    AcyclicIffAllRooted(p);
  }

  lemma BothMovesPass()
    ensures StateAt(TWO_ROOTS, CROSSING, 2) ==
            TWO_ROOTS.(open := map[0 := Updating(0, Under(1)), 1 := Updating(1, Under(0))])
  {
    TwoRootsAreForest();
    hide Chain, Acyclic, Rooted, IsForest, Step, Written;
    assert StateAt(TWO_ROOTS, CROSSING, 0) == TWO_ROOTS;
    assert StateAt(TWO_ROOTS, CROSSING, 1) == TWO_ROOTS.(open := map[0 := Updating(0, Under(1))]);
  }

  lemma CycleIsNoForest(db: SuiteDb, c: seq<Id>)
    requires CyclePath(ParentMap(db.suites), c)
    ensures !IsForest(db)
  {
  }

  lemma StateAfter(s: Desk, events: seq<Event>, k: nat)
    requires k < |events|
    ensures StateAt(s, events, k + 1) == Next(StateAt(s, events, k), events[k])
  {
  }

  lemma WriteIsMade(s: Desk, call: CallId)
    requires call in s.open
    ensures Next(s, Writes(call)) == Desk(Written(s.db, s.open[call]), s.open - {call})
  {
  }

  lemma FirstMoveIsWritten()
    ensures var db3 := Written(TWO_ROOTS.db, Updating(0, Under(1)));
            && StateAt(TWO_ROOTS, CROSSING, 3) == Desk(db3, map[1 := Updating(1, Under(0))])
            && IsForest(db3) && db3.suites == map[0 := Row(0, Some(1)), 1 := Row(1, None)]
  {
    TwoRootsAreForest();
    BothMovesPass();
    StateAfter(TWO_ROOTS, CROSSING, 2);
    hide Chain, Acyclic, Rooted, Closed, Step, StateAt, IsForest;
    WriteKeepsForestIff(TWO_ROOTS.db, Updating(0, Under(1)));
    WriteIsMade(StateAt(TWO_ROOTS, CROSSING, 2), 0);
  }

  lemma SecondMoveCloses(db: SuiteDb)
    requires IsForest(db) && db.suites == map[0 := Row(0, Some(1)), 1 := Row(1, None)]
    ensures !Refused(db, Updating(1, Under(0))) && !ClosesNoCycle(db, Updating(1, Under(0)))
    ensures ParentMap(Written(db, Updating(1, Under(0))).suites) == map[0 := Some(1), 1 := Some(0)]
  {
    hide Chain, Acyclic, Rooted, Closed, IsForest, ClosesNoCycle;
    var after := Written(db, Updating(1, Under(0)));
    assert ParentMap(after.suites) == map[0 := Some(1), 1 := Some(0)];
    CycleIsNoForest(after, [0, 1, 0]);
    WriteKeepsForestIff(db, Updating(1, Under(0)));
  }

  /** Both moves pass their checks and the two suites end as each other's parents, with every
      reference in place: the foreign key has nothing to object to. */
  lemma CrossingMovesCloseCycle()
    ensures IsForest(TWO_ROOTS.db)
    ensures IsForest(StateAt(TWO_ROOTS, CROSSING, 3).db)
    ensures !PassesCycleTest(StateAt(TWO_ROOTS, CROSSING, 3), CROSSING[3])
    ensures var p := ParentMap(StateAt(TWO_ROOTS, CROSSING, 4).db.suites); Closed(p) && OnCycle(p, 0) && OnCycle(p, 1)
  {
    hide IsForest, Written, StateAt, Next, Refused, ClosesNoCycle, ParentMap, Chain, Acyclic;
    TwoRootsAreForest();
    FirstMoveIsWritten();
    SecondMoveCloses(Written(TWO_ROOTS.db, Updating(0, Under(1))));
    StateAfter(TWO_ROOTS, CROSSING, 3);
    WriteIsMade(StateAt(TWO_ROOTS, CROSSING, 3), 1);
    var p: Parents := map[0 := Some(1), 1 := Some(0)];
    assert CyclePath(p, [0, 1, 0]) && CyclePath(p, [1, 0, 1]);
  }

  // ----- a creation whose parent moves meanwhile -----

  const TWO_PAIRS_DESK: Desk := Desk(TWO_PAIRS, map[])

  /** A suite is created under one of depth two, which is moved a level down in between. */
  const LATE_CREATE: seq<Event> :=
    [ChecksCreate(0, 0, CreateSuiteDto("", None, Some(3), None)), Whole(UpdateOp(3, Under(1))), Writes(0)]

  lemma LateCreateStates()
    ensures StateAt(TWO_PAIRS_DESK, LATE_CREATE, 1) ==
            TWO_PAIRS_DESK.(open := map[0 := Creating(0, CreateSuiteDto("", None, Some(3), None))])
    ensures Updated(TWO_PAIRS, 3, Under(1)).1.Ok?
    ensures var s := StateAt(TWO_PAIRS_DESK, LATE_CREATE, 2);
            && s.db.suites == TWO_PAIRS.suites[3 := Row(3, Some(1))] && s.db.nextId == 4
            && s.open == map[0 := Creating(0, CreateSuiteDto("", None, Some(3), None))]
  {
    TwoPairsChains();
    hide Chain, Acyclic, Rooted, Closed, Written;
    assert StateAt(TWO_PAIRS_DESK, LATE_CREATE, 0) == TWO_PAIRS_DESK;
  }

  /** After the move: three levels, the moved suite lowest. */
  lemma MovedMeanwhile()
    ensures var db := StateAt(TWO_PAIRS_DESK, LATE_CREATE, 2).db;
            IsLowForest(TWO_PAIRS) && IsLowForest(db) && Depth(ParentMap(db.suites), 3) == 3
  {
    TwoPairsChains();
    SecondIsUpdate();
    hide Chain, Acyclic, Rooted, Step, StateAt;
    assert IsForest(TWO_PAIRS) && WithinDepth(TWO_PAIRS);
    UpdateKeepsForest(TWO_PAIRS, 3, Under(1));
    var p := ParentMap(TWO_PAIRS.suites);
    hide IsForest, Closed;
    forall x | x in p ensures Depth(p[3 := Some(1)], x) <= 3 { MovedDepth(p, x); }
    MovedDepth(p, 3);
  }

  /** Both requests pass their checks and every state up to the creation has three levels;
      the created suite ends at depth four. */
  lemma LateCreateExceedsLimit()
    ensures IsLowForest(TWO_PAIRS)
    ensures IsLowForest(StateAt(TWO_PAIRS_DESK, LATE_CREATE, 2).db)
    ensures !Fits(StateAt(TWO_PAIRS_DESK, LATE_CREATE, 2), LATE_CREATE[2])
    ensures var p := ParentMap(StateAt(TWO_PAIRS_DESK, LATE_CREATE, 3).db.suites); 4 in p && Depth(p, 4) == 4
  {
    LateCreateStates();
    MovedMeanwhile();
    StateAfter(TWO_PAIRS_DESK, LATE_CREATE, 2);
    var s2 := StateAt(TWO_PAIRS_DESK, LATE_CREATE, 2);
    hide Chain, Acyclic, Rooted, Step, StateAt, Closed, WithinDepth;
    AddKeepsForest(ParentMap(s2.db.suites), 4, Some(3));
    WriteIsMade(s2, 0);
    ParentsAfterWrite(s2.db, s2.open[0]);
  }

  lemma SecondIsUpdate()
    ensures StateAt(TWO_PAIRS_DESK, LATE_CREATE, 2).db == Updated(TWO_PAIRS, 3, Under(1)).0
    ensures Updated(TWO_PAIRS, 3, Under(1)).1.Ok?
    ensures ParentMap(Updated(TWO_PAIRS, 3, Under(1)).0.suites) == ParentMap(TWO_PAIRS.suites)[3 := Some(1)]
  {
    LateCreateStates();
    hide CreateProblem, MoveProblem;
  }

  lemma MovedDepth(p: Parents, x: Id)
    requires p == ParentMap(TWO_PAIRS.suites) && x in p
    ensures Depth(p[3 := Some(1)], x) == if x == 3 then 3 else Depth(p, x)
    ensures Depth(p, x) <= 2
  {
    TwoPairsChains();
    AcyclicIffAllRooted(p);
    hide Chain, Acyclic, Rooted;
    MoveChain(p, 3, Some(1), x);
  }

  // ----- requests that nothing interrupts -----

  lemma StateAtStart(s: Desk, events: seq<Event>)
    ensures StateAt(s, events, 0) == s
  {
  }

  /** An update whose check and write follow each other is the one that takes effect at once,
      refused or not. */
  lemma UninterruptedUpdate(s: Desk, call: CallId, suiteId: Id, dto: UpdateSuiteDto)
    requires call !in s.open && IsForest(s.db)
    ensures StateAt(s, [ChecksUpdate(call, suiteId, dto), Writes(call)], 2).db == Step(s.db, UpdateOp(suiteId, dto))
  {
    var events := [ChecksUpdate(call, suiteId, dto), Writes(call)];
    StateAtStart(s, events);
    StateAfter(s, events, 0);
    StateAfter(s, events, 1);
    if suiteId in s.db.suites && s.db.suites[suiteId].parentId.Some? {
      assert ParentMap(s.db.suites)[suiteId].value in s.db.suites;
    }
    hide StateAt, Chain, Acyclic, Depth;
  }

  /** So is a creation. */
  lemma UninterruptedCreation(s: Desk, call: CallId, userId: Id, dto: CreateSuiteDto)
    requires call !in s.open
    ensures StateAt(s, [ChecksCreate(call, userId, dto), Writes(call)], 2).db == Step(s.db, CreateOp(userId, dto))
  {
    var events := [ChecksCreate(call, userId, dto), Writes(call)];
    StateAtStart(s, events);
    StateAfter(s, events, 0);
    StateAfter(s, events, 1);
    hide StateAt, Chain, Depth;
  }
}
