/** Runs, their snapshot cases and the audit rows written with every change, as
    transactions that take effect one at a time. */
module RunsService {
  import opened Domain
  import opened RunCounters

  datatype RunStatus = PLANNED | IN_PROGRESS | COMPLETED | ABORTED

  predicate Terminal(status: RunStatus) {
    status == COMPLETED || status == ABORTED
  }

  /** Which status changes assertValidRunTransition lets through. */
  predicate ValidTransition(current: RunStatus, target: RunStatus) {
    && !Terminal(current)
    && (target == ABORTED
        || (current == PLANNED && target == IN_PROGRESS)
        || (current == IN_PROGRESS && target == COMPLETED))
  }

  datatype TestRun = TestRun(id: Id, name: string, createdById: Id, status: RunStatus,
                             startedAt: Option<int>, completedAt: Option<int>, counters: Counters)

  /** The copied content of a test case; body stands for its steps, expected result and priority. */
  datatype Snapshot = Snapshot(sourceCaseId: Id, title: string, body: string)

  datatype TestRunCase = TestRunCase(id: Id, testRunId: Id, snapshot: Snapshot, position: nat,
                                     result: RunCaseResult, comment: Option<string>,
                                     recordedById: Option<Id>, recordedAt: Option<int>)

  datatype TestCase = TestCase(id: Id, suiteId: Id, title: string, body: string)

  datatype RunAudit =
    | RunCreated(runId: Id, caseCount: nat)
    | ResultRecorded(caseId: Id, before: RunCaseResult, after: RunCaseResult)
    | StatusChanged(runId: Id, from: RunStatus, to: RunStatus)
    | AssigneesChanged(runId: Id, userIds: seq<Id>)

  /** testCases lists the organisation's cases by creation time, members its users;
      assignees holds (run, user) pairs.  nextId numbers new rows. */
  datatype RunDb = RunDb(runs: map<Id, TestRun>, cases: map<Id, TestRunCase>, assignees: set<(Id, Id)>,
                         testCases: seq<TestCase>, members: set<Id>, nextId: Id, audit: seq<RunAudit>)

  datatype CreateRunDto = CreateRunDto(name: string, suiteIds: seq<Id>, caseIds: seq<Id>, assigneeIds: seq<Id>)

  datatype RecordOutcome = RecordOutcome(updatedCase: TestRunCase, updatedRun: TestRun, previousResult: RunCaseResult)

  // ----- what each transaction does -----

  function Selected(testCases: seq<TestCase>, dto: CreateRunDto): seq<TestCase> {
    if testCases == [] then []
    else
      var c := testCases[0];
      (if c.suiteId in dto.suiteIds || c.id in dto.caseIds then [c] else []) + Selected(testCases[1..], dto)
  }

  function AsSet(ids: seq<Id>): set<Id> {
    set x | x in ids
  }

  /** Assigned users must be members, and the primary key refuses a user named twice. */
  function AssigneeProblem(members: set<Id>, userIds: seq<Id>): Option<DomainError> {
    if !(AsSet(userIds) <= members) then Some(NotFound)
    else if |AsSet(userIds)| != |userIds| then Some(UniqueViolation)
    else None
  }

  function AssigneeRows(runId: Id, userIds: seq<Id>): set<(Id, Id)> {
    set x | x in userIds :: (runId, x)
  }

  function NewCase(runId: Id, source: TestCase, position: nat): TestRunCase {
    TestRunCase(runId + 1 + position, runId, Snapshot(source.id, source.title, source.body), position, PENDING, None,
                None, None)
  }

  /** createMany: one PENDING snapshot per chosen case, numbered in order. */
  function NewCases(runId: Id, chosen: seq<TestCase>): map<Id, TestRunCase> {
    if chosen == [] then map[]
    else
      var n := |chosen| - 1;
      NewCases(runId, chosen[..n])[runId + 1 + n := NewCase(runId, chosen[n], n)]
  }

  lemma {:induction false} NewCasesAreFirstRows(runId: Id, chosen: seq<TestCase>)
    ensures var rows := NewCases(runId, chosen);
            && |rows| == |chosen|
            && (forall c :: c in rows <==> runId < c <= runId + |chosen|)
            && (forall c :: c in rows ==> rows[c].id == c && rows[c].testRunId == runId && rows[c].result == PENDING
                                          && rows[c].recordedById.None? && rows[c].recordedAt.None?)
  {
    if chosen != [] {
      NewCasesAreFirstRows(runId, chosen[..|chosen| - 1]);
    }
  }

  /** The snapshot rows copy the chosen cases, position by position. */
  lemma {:induction false} NewCasesCopyChosen(runId: Id, chosen: seq<TestCase>, i: nat)
    requires i < |chosen|
    ensures runId + 1 + i in NewCases(runId, chosen)
    ensures NewCases(runId, chosen)[runId + 1 + i] == NewCase(runId, chosen[i], i)
  {
    if i < |chosen| - 1 {
      NewCasesCopyChosen(runId, chosen[..|chosen| - 1], i);
    }
  }

  /** Each stored case is chosen once if its suite or the case itself was named, and no
      other case is. */
  lemma {:induction false} SelectedExactly(testCases: seq<TestCase>, dto: CreateRunDto, c: TestCase)
    ensures multiset(Selected(testCases, dto))[c] ==
            if c.suiteId in dto.suiteIds || c.id in dto.caseIds then multiset(testCases)[c] else 0
  {
    if testCases != [] {
      assert testCases == [testCases[0]] + testCases[1..];
      SelectedExactly(testCases[1..], dto, c);
    }
  }

  /** Chosen cases keep the order of the listing. */
  lemma {:induction false} SelectedKeepsOrder(before: seq<TestCase>, after: seq<TestCase>, dto: CreateRunDto)
    ensures Selected(before + after, dto) == Selected(before, dto) + Selected(after, dto)
  {
    if before == [] {
      assert before + after == after;
    } else {
      assert (before + after)[1..] == before[1..] + after;
      SelectedKeepsOrder(before[1..], after, dto);
    }
  }

  lemma SelectedNext(testCases: seq<TestCase>, dto: CreateRunDto, i: nat)
    requires i < |testCases|
    ensures Selected(testCases[i..], dto) ==
            if testCases[i].suiteId in dto.suiteIds || testCases[i].id in dto.caseIds
            then [testCases[i]] + Selected(testCases[i + 1..], dto) else Selected(testCases[i + 1..], dto)
  {
    assert testCases[i..][1..] == testCases[i + 1..];
  }

  lemma NoneSelected(dto: CreateRunDto)
    ensures Selected([], dto) == []
  {
  }

  function Created(db: RunDb, userId: Id, dto: CreateRunDto): (RunDb, Result<TestRun>) {
    var chosen := Selected(db.testCases, dto);
    if chosen == [] then (db, Err(RunNoCases))
    else if AssigneeProblem(db.members, dto.assigneeIds).Some? then
      (db, Err(AssigneeProblem(db.members, dto.assigneeIds).value))
    else
      var run := TestRun(db.nextId, dto.name, userId, PLANNED, None, None, Counters(|chosen|, 0, 0, 0, 0));
      (db.(runs := db.runs[run.id := run],
           cases := db.cases + NewCases(run.id, chosen),
           assignees := db.assignees + AssigneeRows(run.id, dto.assigneeIds),
           nextId := run.id + 1 + |chosen|,
           audit := db.audit + [RunCreated(run.id, |chosen|)]),
       Ok(run))
  }

  /** Clearing a result clears who recorded it and when; a comment left out is kept. */
  function Rerecorded(c: TestRunCase, userId: Id, result: RunCaseResult, comment: Option<string>,
                      now: int): TestRunCase {
    c.(result := result,
       comment := if comment.Some? then comment else c.comment,
       recordedById := if result == PENDING then None else Some(userId),
       recordedAt := if result == PENDING then None else Some(now))
  }

  function RecordProblem(db: RunDb, runId: Id, caseId: Id): Option<DomainError> {
    if runId !in db.runs then Some(NotFound)
    else if db.runs[runId].status != IN_PROGRESS then Some(RunNotInProgress)
    else if caseId !in db.cases || db.cases[caseId].testRunId != runId then Some(NotFound)
    else None
  }

  function Recorded(db: RunDb, runId: Id, caseId: Id, userId: Id, result: RunCaseResult, comment: Option<string>,
                    now: int)
    : (RunDb, Result<RecordOutcome>)
  {
    if RecordProblem(db, runId, caseId).Some? then (db, Err(RecordProblem(db, runId, caseId).value))
    else
      var previous := db.cases[caseId].result;
      var updatedCase := Rerecorded(db.cases[caseId], userId, result, comment, now);
      var updatedRun := db.runs[runId].(counters := Shift(db.runs[runId].counters, previous, result));
      (db.(cases := db.cases[caseId := updatedCase], runs := db.runs[runId := updatedRun],
           audit := db.audit + [ResultRecorded(caseId, previous, result)]),
       Ok(RecordOutcome(updatedCase, updatedRun, previous)))
  }

  function StatusSet(db: RunDb, runId: Id, target: RunStatus, now: int): (RunDb, Result<TestRun>) {
    if runId !in db.runs then (db, Err(NotFound))
    else
      var run := db.runs[runId];
      if !ValidTransition(run.status, target) then (db, Err(RunInvalidTransition))
      else
        var updated := run.(status := target,
                            startedAt := if target == IN_PROGRESS && run.startedAt.None? then Some(now)
                                         else run.startedAt,
                            completedAt := if Terminal(target) then Some(now) else run.completedAt);
        (db.(runs := db.runs[runId := updated], audit := db.audit + [StatusChanged(runId, run.status, target)]),
         Ok(updated))
  }

  function AssigneesSet(db: RunDb, runId: Id, userIds: seq<Id>): (RunDb, Result<set<Id>>) {
    if runId !in db.runs then (db, Err(NotFound))
    else if AssigneeProblem(db.members, userIds).Some? then (db, Err(AssigneeProblem(db.members, userIds).value))
    else
      (db.(assignees := (set a | a in db.assignees && a.0 != runId) + AssigneeRows(runId, userIds),
           audit := db.audit + [AssigneesChanged(runId, userIds)]),
       Ok(AsSet(userIds)))
  }

  // ----- what happens to the sources of snapshots -----

  /** Changes to test cases, suites and members made elsewhere.  A field left out of an edit
      is None; deleting suites deletes the cases in them. */
  datatype SourceChange =
    | AddCase(suiteId: Id, title: string, body: string)
    | EditCase(id: Id, newSuite: Option<Id>, newTitle: Option<string>, newBody: Option<string>)
    | DeleteCase(id: Id)
    | DeleteSuites(suiteIds: set<Id>)
    | SetMembers(members: set<Id>)

  function Or<T>(edit: Option<T>, current: T): T {
    if edit.Some? then edit.value else current
  }

  function EditedCase(c: TestCase, change: SourceChange): TestCase
    requires change.EditCase?
  {
    if c.id != change.id then c
    else TestCase(c.id, Or(change.newSuite, c.suiteId), Or(change.newTitle, c.title), Or(change.newBody, c.body))
  }

  predicate Deletes(change: SourceChange, c: TestCase) {
    match change
    case DeleteCase(id) => c.id == id
    case DeleteSuites(suiteIds) => c.suiteId in suiteIds
    case _ => false
  }

  function Remaining(testCases: seq<TestCase>, change: SourceChange): seq<TestCase> {
    if testCases == [] then []
    else if Deletes(change, testCases[0]) then Remaining(testCases[1..], change)
    else [testCases[0]] + Remaining(testCases[1..], change)
  }

  function SourcesChanged(db: RunDb, change: SourceChange): RunDb {
    match change
    case AddCase(suiteId, title, body) =>
      db.(testCases := db.testCases + [TestCase(db.nextId, suiteId, title, body)], nextId := db.nextId + 1)
    case EditCase(_, _, _, _) =>
      db.(testCases := seq(|db.testCases|, i requires 0 <= i < |db.testCases| => EditedCase(db.testCases[i], change)))
    case SetMembers(members) => db.(members := members)
    case _ => db.(testCases := Remaining(db.testCases, change))
  }

  /** A deletion removes every copy of the cases it is about and no other. */
  lemma {:induction false} RemainingExactly(testCases: seq<TestCase>, change: SourceChange, c: TestCase)
    ensures multiset(Remaining(testCases, change))[c] == if Deletes(change, c) then 0 else multiset(testCases)[c]
  {
    if testCases != [] {
      assert testCases == [testCases[0]] + testCases[1..];
      RemainingExactly(testCases[1..], change, c);
    }
  }

  /** And so do the cases that are left. */
  lemma {:induction false} RemainingKeepsOrder(before: seq<TestCase>, after: seq<TestCase>, change: SourceChange)
    ensures Remaining(before + after, change) == Remaining(before, change) + Remaining(after, change)
  {
    if before == [] {
      assert before + after == after;
    } else {
      assert (before + after)[1..] == before[1..] + after;
      RemainingKeepsOrder(before[1..], after, change);
    }
  }

  // ----- the service -----

  class RunsService {
    var runs: map<Id, TestRun>
    var cases: map<Id, TestRunCase>
    var assignees: set<(Id, Id)>
    var testCases: seq<TestCase>
    var members: set<Id>
    var nextId: Id
    var audit: seq<RunAudit>

    ghost function Db(): RunDb
      reads this
    {
      RunDb(runs, cases, assignees, testCases, members, nextId, audit)
    }

    method AssertAssigneesAreMembers(userIds: seq<Id>) returns (ok: bool)
      ensures ok <==> AsSet(userIds) <= members
    {
      var uniqueIds := AsSet(userIds);
      var memberCount := |members * uniqueIds|;
      ok := memberCount == |uniqueIds|;
      SubsetBySize(members, uniqueIds);
    }

    method FindCases(dto: CreateRunDto) returns (chosen: seq<TestCase>)
      ensures chosen == Selected(testCases, dto)
    {
      chosen := [];
      hide Selected;
      assert testCases[0..] == testCases;
      for i := 0 to |testCases|
        invariant chosen + Selected(testCases[i..], dto) == Selected(testCases, dto)
      {
        SelectedNext(testCases, dto, i);
        assert chosen + ([testCases[i]] + Selected(testCases[i + 1..], dto))
               == chosen + [testCases[i]] + Selected(testCases[i + 1..], dto);
        if testCases[i].suiteId in dto.suiteIds || testCases[i].id in dto.caseIds {
          chosen := chosen + [testCases[i]];
        }
      }
      assert testCases[|testCases|..] == [];
      NoneSelected(dto);
    }

    method CopyCases(runId: Id, chosen: seq<TestCase>)
      modifies this`cases
      ensures cases == old(cases) + NewCases(runId, chosen)
    {
      for i := 0 to |chosen|
        invariant cases == old(cases) + NewCases(runId, chosen[..i])
      {
        assert chosen[..i + 1][..i] == chosen[..i];
        cases := cases[runId + 1 + i := NewCase(runId, chosen[i], i)];
      }
      assert chosen[..|chosen|] == chosen;
    }

    method Create(userId: Id, dto: CreateRunDto) returns (r: Result<TestRun>)
      modifies this
      ensures (Db(), r) == Created(old(Db()), userId, dto)
      ensures Coherent(old(Db())) ==> Coherent(Db())
    {
      hide Coherent;
      if Coherent(Db()) { CreateKeepsCoherent(Db(), userId, dto); }
      hide Selected, NewCases, AsSet, AssigneeRows;
      var chosen := FindCases(dto);
      if |chosen| == 0 {
        return Err(RunNoCases);
      }
      NoIds(dto.assigneeIds);
      if |dto.assigneeIds| > 0 {
        var ok := AssertAssigneesAreMembers(dto.assigneeIds);
        if !ok {
          return Err(NotFound);
        }
      }
      if |AsSet(dto.assigneeIds)| != |dto.assigneeIds| {
        return Err(UniqueViolation);
      }
      var run := TestRun(nextId, dto.name, userId, PLANNED, None, None, Counters(|chosen|, 0, 0, 0, 0));
      runs := runs[run.id := run];
      CopyCases(run.id, chosen);
      assignees := assignees + AssigneeRows(run.id, dto.assigneeIds);
      nextId := run.id + 1 + |chosen|;
      audit := audit + [RunCreated(run.id, |chosen|)];
      r := Ok(run);
    }

    /** Net change per counter first, then one update: recording the same result again must
        not count it twice. */
    method ApplyCounterShift(runId: Id, previousResult: RunCaseResult, nextResult: RunCaseResult) returns (run: TestRun)
      requires runId in runs
      modifies this`runs
      ensures run == old(runs)[runId].(counters := Shift(old(runs)[runId].counters, previousResult, nextResult))
      ensures runs == old(runs)[runId := run]
    {
      var delta := NetChange(previousResult, nextResult);
      run := runs[runId];
      var counters := AddAll(run.counters, delta);
      ShiftedIsShift(run.counters, previousResult, nextResult, counters);
      if counters != run.counters {
        run := run.(counters := counters);
        runs := runs[runId := run];
      }
    }

    method RecordResult(runId: Id, runCaseId: Id, userId: Id, result: RunCaseResult, comment: Option<string>, now: int)
      returns (r: Result<RecordOutcome>)
      modifies this
      ensures (Db(), r) == Recorded(old(Db()), runId, runCaseId, userId, result, comment, now)
      ensures Coherent(old(Db())) ==> Coherent(Db())
    {
      hide Coherent;
      if Coherent(Db()) { RecordKeepsCoherent(Db(), runId, runCaseId, userId, result, comment, now); }
      if runId !in runs {
        return Err(NotFound);
      }
      if runs[runId].status != IN_PROGRESS {
        return Err(RunNotInProgress);
      }
      if runCaseId !in cases || cases[runCaseId].testRunId != runId {
        return Err(NotFound);
      }
      var runCase := cases[runCaseId];
      var previousResult := runCase.result;
      var isPending := result == PENDING;
      var updatedCase := runCase.(result := result,
                                  recordedById := if isPending then None else Some(userId),
                                  recordedAt := if isPending then None else Some(now));
      if comment.Some? { updatedCase := updatedCase.(comment := comment); }
      cases := cases[runCaseId := updatedCase];
      var updatedRun := ApplyCounterShift(runId, previousResult, result);
      audit := audit + [ResultRecorded(runCaseId, previousResult, result)];
      r := Ok(RecordOutcome(updatedCase, updatedRun, previousResult));
    }

    method UpdateStatus(runId: Id, target: RunStatus, now: int) returns (r: Result<TestRun>)
      modifies this
      ensures (Db(), r) == StatusSet(old(Db()), runId, target, now)
      ensures Coherent(old(Db())) ==> Coherent(Db())
    {
      hide Coherent;
      if Coherent(Db()) { StatusKeepsCoherent(Db(), runId, target, now); }
      if runId !in runs {
        return Err(NotFound);
      }
      var run := runs[runId];
      if !ValidTransition(run.status, target) {
        return Err(RunInvalidTransition);
      }
      var data := run.(status := target);
      if target == IN_PROGRESS && run.startedAt.None? { data := data.(startedAt := Some(now)); }
      if target == COMPLETED || target == ABORTED { data := data.(completedAt := Some(now)); }
      runs := runs[runId := data];
      audit := audit + [StatusChanged(runId, run.status, target)];
      r := Ok(data);
    }

    /** Full replacement: the old assignments go, the new list comes in. */
    method UpdateAssignees(runId: Id, userIds: seq<Id>) returns (r: Result<set<Id>>)
      modifies this
      ensures (Db(), r) == AssigneesSet(old(Db()), runId, userIds)
      ensures Coherent(old(Db())) ==> Coherent(Db())
    {
      hide Coherent;
      if Coherent(Db()) { StepKeepsCoherent(Db(), AssignOp(runId, userIds)); }
      if runId !in runs {
        return Err(NotFound);
      }
      NoIds(userIds);
      if |userIds| > 0 {
        var ok := AssertAssigneesAreMembers(userIds);
        if !ok {
          return Err(NotFound);
        }
      }
      if |AsSet(userIds)| != |userIds| {
        return Err(UniqueViolation);
      }
      assignees := set a | a in assignees && a.0 != runId;
      if |userIds| > 0 {
        assignees := assignees + AssigneeRows(runId, userIds);
      }
      audit := audit + [AssigneesChanged(runId, userIds)];
      r := Ok(AsSet(userIds));
    }
  }

  lemma NoIds(ids: seq<Id>)
    ensures ids == [] ==> AsSet(ids) == {} && forall r :: AssigneeRows(r, ids) == {}
  {
  }

  lemma SubsetBySize(members: set<Id>, ids: set<Id>)
    ensures |members * ids| == |ids| <==> ids <= members
  {
    assert ids == (members * ids) + (ids - members);
    assert ids <= members <==> ids - members == {};
  }

  // ----- what holds in every reachable state -----

  ghost function CasesOf(cases: map<Id, TestRunCase>, runId: Id): set<Id> {
    set c | c in cases && cases[c].testRunId == runId
  }

  ghost function CasesWith(cases: map<Id, TestRunCase>, runId: Id, result: RunCaseResult): set<Id> {
    set c | c in cases && cases[c].testRunId == runId && cases[c].result == result
  }

  ghost predicate CountersExact(cases: map<Id, TestRunCase>, run: TestRun) {
    && run.counters.total == |CasesOf(cases, run.id)|
    && forall result :: FieldOf(result).Some? ==>
         run.counters.Get(FieldOf(result).value) == |CasesWith(cases, run.id, result)|
  }

  ghost predicate LifecycleSound(cases: map<Id, TestRunCase>, run: TestRun) {
    && (run.completedAt.Some? <==> Terminal(run.status))
    && (run.status == PLANNED ==> run.startedAt.None?)
    && (run.status == IN_PROGRESS || run.status == COMPLETED ==> run.startedAt.Some?)
    && (run.status == PLANNED ==> forall c :: c in cases && cases[c].testRunId == run.id ==> cases[c].result == PENDING)
  }

  ghost predicate CaseSound(db: RunDb, c: Id)
    requires c in db.cases
  {
    var row := db.cases[c];
    && row.id == c && c < db.nextId && row.testRunId in db.runs
    && (row.recordedById.None? <==> row.result == PENDING)
    && (row.recordedAt.None? <==> row.result == PENDING)
  }

  ghost predicate RunSound(db: RunDb, r: Id)
    requires r in db.runs
  {
    db.runs[r].id == r && r < db.nextId && CountersExact(db.cases, db.runs[r]) && LifecycleSound(db.cases, db.runs[r])
  }

  ghost predicate Coherent(db: RunDb) {
    && (forall r :: r in db.runs ==> RunSound(db, r))
    && (forall c :: c in db.cases ==> CaseSound(db, c))
  }

  /** Two sets that differ at most in c. */
  lemma SizesBesides(a: set<Id>, b: set<Id>, c: Id)
    requires a - {c} == b - {c}
    ensures |b| == |a| + (if c in b then 1 else 0) - (if c in a then 1 else 0)
  {
    assert |a - {c}| == |a| - if c in a then 1 else 0;
    assert |b - {c}| == |b| - if c in b then 1 else 0;
  }

  lemma CountAfterChange(cases: map<Id, TestRunCase>, c: Id, row: TestRunCase, runId: Id, result: RunCaseResult)
    requires c in cases && row.testRunId == cases[c].testRunId
    ensures CasesOf(cases[c := row], runId) == CasesOf(cases, runId)
    ensures |CasesWith(cases[c := row], runId, result)| == |CasesWith(cases, runId, result)|
              + (if row.testRunId == runId && row.result == result then 1 else 0)
              - (if row.testRunId == runId && cases[c].result == result then 1 else 0)
  {
    var before, after := CasesWith(cases, runId, result), CasesWith(cases[c := row], runId, result);
    assert before - {c} == after - {c};
    assert c in after <==> row.testRunId == runId && row.result == result;
    hide CasesWith;
    SizesBesides(before, after, c);
  }

  lemma OtherRunsCases(cases: map<Id, TestRunCase>, rows: map<Id, TestRunCase>, q: Id)
    requires forall c :: c in rows ==> c !in cases && rows[c].testRunId != q
    ensures CasesOf(cases + rows, q) == CasesOf(cases, q)
    ensures forall result :: CasesWith(cases + rows, q, result) == CasesWith(cases, q, result)
  {
    forall result ensures CasesWith(cases + rows, q, result) == CasesWith(cases, q, result) {}
  }

  lemma FirstCases(cases: map<Id, TestRunCase>, runId: Id, chosen: seq<TestCase>)
    requires forall c :: c in cases ==> c <= runId && cases[c].testRunId != runId
    ensures CasesOf(cases + NewCases(runId, chosen), runId) == NewCases(runId, chosen).Keys
    ensures forall result | result != PENDING :: CasesWith(cases + NewCases(runId, chosen), runId, result) == {}
  {
    var rows := NewCases(runId, chosen);
    NewCasesAreFirstRows(runId, chosen);
    forall result | result != PENDING ensures CasesWith(cases + rows, runId, result) == {} {}
  }

  lemma IdsBelowNext(db: RunDb)
    requires Coherent(db)
    ensures forall r :: r in db.runs ==> r < db.nextId && db.runs[r].id == r
    ensures forall c :: c in db.cases ==>
              c < db.nextId && db.cases[c].testRunId in db.runs && db.cases[c].testRunId < db.nextId
  {
    forall r | r in db.runs ensures RunSound(db, r) {}
    forall c | c in db.cases ensures CaseSound(db, c) {}
  }

  lemma OldRunSound(cases: map<Id, TestRunCase>, rows: map<Id, TestRunCase>, run: TestRun)
    requires forall c :: c in rows ==> c !in cases && rows[c].testRunId != run.id
    requires CountersExact(cases, run) && LifecycleSound(cases, run)
    ensures CountersExact(cases + rows, run) && LifecycleSound(cases + rows, run)
  {
    hide CasesOf, CasesWith;
    OtherRunsCases(cases, rows, run.id);
  }

  lemma CreateKeepsOldRun(db: RunDb, userId: Id, dto: CreateRunDto, q: Id)
    requires Coherent(db) && Created(db, userId, dto).1.Ok? && q in db.runs
    ensures RunSound(Created(db, userId, dto).0, q)
  {
    assert RunSound(db, q);
    var db' := Created(db, userId, dto).0;
    assert db'.cases == db.cases + NewCases(db.nextId, Selected(db.testCases, dto)) && db.nextId <= db'.nextId;
    IdsBelowNext(db);
    assert db'.runs[q] == db.runs[q];
    hide Selected, NewCases, Coherent, AssigneeProblem, CountersExact, LifecycleSound, Created;
    NewCasesAreFirstRows(db.nextId, Selected(db.testCases, dto));
    OldRunSound(db.cases, NewCases(db.nextId, Selected(db.testCases, dto)), db.runs[q]);
  }

  lemma FirstRunSound(cases: map<Id, TestRunCase>, run: TestRun, chosen: seq<TestCase>)
    requires forall c :: c in cases ==> c <= run.id && cases[c].testRunId != run.id
    requires run.status == PLANNED && run.startedAt.None? && run.completedAt.None?
    requires run.counters == Counters(|chosen|, 0, 0, 0, 0)
    ensures CountersExact(cases + NewCases(run.id, chosen), run)
    ensures LifecycleSound(cases + NewCases(run.id, chosen), run)
  {
    NewCasesAreFirstRows(run.id, chosen);
    FirstCases(cases, run.id, chosen);
    hide NewCases, CasesOf, CasesWith;
    var rows := NewCases(run.id, chosen);
    assert |rows| == |rows.Keys|;
    hide CountersExact, LifecycleSound;
    FirstCounts(cases + rows, run, |chosen|);
    FirstLifecycle(cases, rows, run);
  }

  lemma FirstLifecycle(cases: map<Id, TestRunCase>, rows: map<Id, TestRunCase>, run: TestRun)
    requires forall c :: c in cases ==> cases[c].testRunId != run.id
    requires forall c :: c in rows ==> rows[c].result == PENDING
    requires run.status == PLANNED && run.startedAt.None? && run.completedAt.None?
    ensures LifecycleSound(cases + rows, run)
  {
  }

  lemma FirstCounts(cases: map<Id, TestRunCase>, run: TestRun, n: nat)
    requires run.counters == Counters(n, 0, 0, 0, 0) && |CasesOf(cases, run.id)| == n
    requires forall result | result != PENDING :: CasesWith(cases, run.id, result) == {}
    ensures CountersExact(cases, run)
  {
    hide CasesOf, CasesWith;
    forall result | FieldOf(result).Some? ensures |CasesWith(cases, run.id, result)| == 0 {
      assert CasesWith(cases, run.id, result) == {};
    }
  }

  lemma CreateMakesSoundRun(db: RunDb, userId: Id, dto: CreateRunDto)
    requires Coherent(db) && Created(db, userId, dto).1.Ok?
    ensures RunSound(Created(db, userId, dto).0, db.nextId)
  {
    hide Coherent, Selected, NewCases, AssigneeProblem, CountersExact, LifecycleSound;
    IdsBelowNext(db);
    FirstRunSound(db.cases, Created(db, userId, dto).1.value, Selected(db.testCases, dto));
  }

  lemma CreateKeepsCoherent(db: RunDb, userId: Id, dto: CreateRunDto)
    requires Coherent(db)
    ensures Coherent(Created(db, userId, dto).0)
  {
    var (db', r) := Created(db, userId, dto);
    if r.Ok? {
      NewCasesAreFirstRows(db.nextId, Selected(db.testCases, dto));
      forall q | q in db'.runs ensures RunSound(db', q) {
        if q == db.nextId { CreateMakesSoundRun(db, userId, dto); } else { CreateKeepsOldRun(db, userId, dto, q); }
      }
      forall c | c in db'.cases ensures CaseSound(db', c) {
        if c in db.cases { assert CaseSound(db, c); }
      }
    }
  }

  lemma RunAfterRecord(cases: map<Id, TestRunCase>, run: TestRun, c: Id, row: TestRunCase, run': TestRun)
    requires CountersExact(cases, run) && LifecycleSound(cases, run) && run.status != PLANNED
    requires c in cases && row.testRunId == cases[c].testRunId == run.id
    requires run' == run.(counters := Shift(run.counters, cases[c].result, row.result))
    ensures CountersExact(cases[c := row], run') && LifecycleSound(cases[c := row], run')
  {
    hide CasesWith, CasesOf;
    CountAfterChange(cases, c, row, run.id, PENDING);
    forall x ensures |CasesWith(cases[c := row], run.id, x)| == |CasesWith(cases, run.id, x)|
                       + (if row.result == x then 1 else 0) - (if cases[c].result == x then 1 else 0) {
      CountAfterChange(cases, c, row, run.id, x);
    }
  }

  lemma OtherRunAfterRecord(cases: map<Id, TestRunCase>, run: TestRun, c: Id, row: TestRunCase)
    requires CountersExact(cases, run) && LifecycleSound(cases, run)
    requires c in cases && row.testRunId == cases[c].testRunId != run.id
    ensures CountersExact(cases[c := row], run) && LifecycleSound(cases[c := row], run)
  {
    hide CasesWith, CasesOf;
    CountAfterChange(cases, c, row, run.id, PENDING);
    forall x ensures |CasesWith(cases[c := row], run.id, x)| == |CasesWith(cases, run.id, x)| {
      CountAfterChange(cases, c, row, run.id, x);
    }
  }

  lemma RecordKeepsCoherent(db: RunDb, runId: Id, caseId: Id, userId: Id, result: RunCaseResult,
                            comment: Option<string>, now: int)
    requires Coherent(db)
    ensures Coherent(Recorded(db, runId, caseId, userId, result, comment, now).0)
  {
    hide CountersExact, LifecycleSound, Shift;
    var (db', r) := Recorded(db, runId, caseId, userId, result, comment, now);
    if r.Ok? {
      assert CaseSound(db, caseId) && RunSound(db, runId);
      RunAfterRecord(db.cases, db.runs[runId], caseId, r.value.updatedCase, r.value.updatedRun);
      forall q | q in db'.runs ensures RunSound(db', q) {
        assert RunSound(db, q);
        if q != runId { OtherRunAfterRecord(db.cases, db.runs[q], caseId, r.value.updatedCase); }
      }
      forall c | c in db'.cases ensures CaseSound(db', c) {
        assert CaseSound(db, c);
      }
    }
  }

  lemma StatusKeepsCoherent(db: RunDb, runId: Id, target: RunStatus, now: int)
    requires Coherent(db)
    ensures Coherent(StatusSet(db, runId, target, now).0)
  {
    var (db', r) := StatusSet(db, runId, target, now);
    if r.Ok? {
      forall q | q in db'.runs ensures RunSound(db', q) { assert RunSound(db, q); }
      forall c | c in db'.cases ensures CaseSound(db', c) { assert CaseSound(db, c); }
    }
  }

  datatype RunOp =
    | CreateOp(userId: Id, create: CreateRunDto)
    | RecordOp(runId: Id, caseId: Id, userId: Id, result: RunCaseResult, comment: Option<string>, now: int)
    | StatusOp(runId: Id, target: RunStatus, now: int)
    | AssignOp(runId: Id, userIds: seq<Id>)
    | SourceOp(change: SourceChange)

  function Step(db: RunDb, op: RunOp): RunDb {
    match op
    case CreateOp(userId, dto) => Created(db, userId, dto).0
    case RecordOp(runId, caseId, userId, result, comment, now) =>
      Recorded(db, runId, caseId, userId, result, comment, now).0
    case StatusOp(runId, target, now) => StatusSet(db, runId, target, now).0
    case AssignOp(runId, userIds) => AssigneesSet(db, runId, userIds).0
    case SourceOp(change) => SourcesChanged(db, change)
  }

  function Run(db: RunDb, ops: seq<RunOp>): RunDb
    decreases |ops|
  {
    if ops == [] then db else Run(Step(db, ops[0]), ops[1..])
  }

  lemma SameRowsCoherent(db: RunDb, db': RunDb)
    requires Coherent(db) && db'.runs == db.runs && db'.cases == db.cases && db.nextId <= db'.nextId
    ensures Coherent(db')
  {
    forall q | q in db'.runs ensures RunSound(db', q) { assert RunSound(db, q); }
    forall c | c in db'.cases ensures CaseSound(db', c) { assert CaseSound(db, c); }
  }

  lemma StepKeepsCoherent(db: RunDb, op: RunOp)
    requires Coherent(db)
    ensures Coherent(Step(db, op))
  {
    hide Coherent, Created, Recorded, StatusSet, CaseSound, RunSound;
    match op
    case CreateOp(userId, dto) => CreateKeepsCoherent(db, userId, dto);
    case RecordOp(runId, caseId, userId, result, comment, now) =>
      RecordKeepsCoherent(db, runId, caseId, userId, result, comment, now);
    case StatusOp(runId, target, now) => StatusKeepsCoherent(db, runId, target, now);
    case AssignOp(_, _) => SameRowsCoherent(db, Step(db, op));
    case SourceOp(_) => SameRowsCoherent(db, Step(db, op));
  }

  /** After any sequence of calls every counter equals a recount of the run's cases, and
      results, recorders, dates and statuses fit together. */
  lemma {:induction false} RunsStayCoherent(db: RunDb, ops: seq<RunOp>)
    requires Coherent(db)
    ensures Coherent(Run(db, ops))
    decreases |ops|
  {
    if ops != [] {
      StepKeepsCoherent(db, ops[0]);
      RunsStayCoherent(Step(db, ops[0]), ops[1..]);
    }
  }

  // ----- consequences for one run -----

  /** A created run holds a pending copy of every chosen case, in order, and keeps these
      copies whatever happens to the run or to the original cases and suites later. */
  lemma SnapshotsAreKept(db: RunDb, userId: Id, dto: CreateRunDto, i: nat, ops: seq<RunOp>)
    requires Coherent(db) && Created(db, userId, dto).1.Ok? && i < |Selected(db.testCases, dto)|
    ensures var chosen, runId, later := Selected(db.testCases, dto)[i], db.nextId, Run(Created(db, userId, dto).0, ops);
            && runId + 1 + i in Created(db, userId, dto).0.cases
            && Created(db, userId, dto).0.cases[runId + 1 + i] == NewCase(runId, chosen, i)
            && runId + 1 + i in later.cases
            && later.cases[runId + 1 + i].snapshot == Snapshot(chosen.id, chosen.title, chosen.body)
            && later.cases[runId + 1 + i].testRunId == runId && later.cases[runId + 1 + i].position == i
  {
    hide Selected, NewCases, Coherent, AssigneeProblem;
    NewCasesCopyChosen(db.nextId, Selected(db.testCases, dto), i);
    CreateKeepsCoherent(db, userId, dto);
    RunsEvolve(Created(db, userId, dto).0, ops);
  }

  lemma DisjointSizes(a: set<Id>, b: set<Id>, c: set<Id>, d: set<Id>, e: set<Id>)
    requires a !! b && (a + b) !! c && (a + b + c) !! d && (a + b + c + d) !! e
    ensures |a + b + c + d + e| == |a| + |b| + |c| + |d| + |e|
  {
  }

  lemma CasesPartition(cases: map<Id, TestRunCase>, runId: Id)
    ensures |CasesOf(cases, runId)| == |CasesWith(cases, runId, PENDING)| + |CasesWith(cases, runId, PASS)|
              + |CasesWith(cases, runId, FAIL)| + |CasesWith(cases, runId, BLOCKED)|
              + |CasesWith(cases, runId, SKIPPED)|
  {
    var a, b, c, d, e := CasesWith(cases, runId, PENDING), CasesWith(cases, runId, PASS), CasesWith(cases, runId, FAIL),
                         CasesWith(cases, runId, BLOCKED), CasesWith(cases, runId, SKIPPED);
    forall x ensures x in CasesOf(cases, runId) <==> x in a + b + c + d + e {
      if x in CasesOf(cases, runId) {
        match cases[x].result { case PENDING => case PASS => case FAIL => case BLOCKED => case SKIPPED => }
      }
    }
    assert a !! b && (a + b) !! c && (a + b + c) !! d && (a + b + c + d) !! e;
    hide CasesOf, CasesWith;
    assert CasesOf(cases, runId) == a + b + c + d + e;
    DisjointSizes(a, b, c, d, e);
  }

  lemma CountersAddUp(cases: map<Id, TestRunCase>, run: TestRun)
    requires CountersExact(cases, run)
    ensures NonNegative(run.counters)
    ensures run.counters.total - run.counters.Recorded() == |CasesWith(cases, run.id, PENDING)|
  {
    hide CasesOf, CasesWith;
    var c := run.counters;
    CasesPartition(cases, run.id);
    assert FieldOf(PASS).Some? && FieldOf(FAIL).Some? && FieldOf(BLOCKED).Some? && FieldOf(SKIPPED).Some?;
    assert c.passed == |CasesWith(cases, run.id, PASS)| && c.failed == |CasesWith(cases, run.id, FAIL)|;
    assert c.blocked == |CasesWith(cases, run.id, BLOCKED)| && c.skipped == |CasesWith(cases, run.id, SKIPPED)|;
  }

  /** In a coherent state no counter is negative, the pending cases are the ones no counter
      covers, and neither clamp changes what it is given. */
  lemma CoherentRatios(db: RunDb, runId: Id)
    requires Coherent(db) && runId in db.runs
    ensures var c := db.runs[runId].counters;
            && NonNegative(c)
            && c.total - c.Recorded() == |CasesWith(db.cases, runId, PENDING)|
            && ComputeCounters(c) == RunProgress(c, Ratio(c.Recorded(), c.total), Ratio(c.passed, c.Recorded()))
  {
    hide CasesWith, CountersExact, LifecycleSound, CaseSound, Ratio, Clamp01;
    assert RunSound(db, runId);
    CountersAddUp(db.cases, db.runs[runId]);
    ClampsBiteOnlyOnOverflow(db.runs[runId].counters);
  }

  /** Every decrement is covered: the counter about to lose one is at least one. */
  lemma DecrementIsCovered(db: RunDb, runId: Id, caseId: Id)
    requires Coherent(db) && RecordProblem(db, runId, caseId).None? && FieldOf(db.cases[caseId].result).Some?
    ensures db.runs[runId].counters.Get(FieldOf(db.cases[caseId].result).value) >= 1
  {
    var result := db.cases[caseId].result;
    assert RunSound(db, runId);
    assert caseId in CasesWith(db.cases, runId, result);
    assert |CasesWith(db.cases, runId, result)| >= 1;
    match result { case PASS => case FAIL => case BLOCKED => case SKIPPED => }
  }

  /** Recording the result a case already has leaves every run row as it was. */
  lemma SameResultKeepsCounters(db: RunDb, runId: Id, caseId: Id, userId: Id, comment: Option<string>, now: int)
    requires RecordProblem(db, runId, caseId).None?
    ensures Recorded(db, runId, caseId, userId, db.cases[caseId].result, comment, now).0.runs == db.runs
  {
    var result := db.cases[caseId].result;
    var c := db.runs[runId].counters;
    assert Shift(c, result, result) == c;
  }

  // ----- how rows may change over time -----

  predicate StatusReaches(a: RunStatus, b: RunStatus) {
    a == b || a == PLANNED || (a == IN_PROGRESS && Terminal(b))
  }

  /** The status moves forward, a date once set stays, and a finished run is frozen. */
  ghost predicate RunEvolves(a: TestRun, b: TestRun) {
    && StatusReaches(a.status, b.status)
    && (a.startedAt.Some? ==> b.startedAt == a.startedAt)
    && (a.completedAt.Some? ==> b.completedAt == a.completedAt)
    && b.name == a.name && b.createdById == a.createdById && b.counters.total == a.counters.total
    && (Terminal(a.status) ==> b == a)
  }

  /** The snapshot of a case never changes. */
  ghost predicate CaseEvolves(a: TestRunCase, b: TestRunCase) {
    b.snapshot == a.snapshot && b.testRunId == a.testRunId && b.position == a.position
  }

  /** How the tables may differ between two moments; results freeze with their run. */
  ghost predicate Evolves(db: RunDb, db': RunDb) {
    && (forall r :: r in db.runs ==> r in db'.runs && RunEvolves(db.runs[r], db'.runs[r]))
    && (forall c :: c in db.cases ==> c in db'.cases && CaseEvolves(db.cases[c], db'.cases[c]))
    && (forall c :: c in db.cases && db.cases[c].testRunId in db.runs && Terminal(db.runs[db.cases[c].testRunId].status)
          ==> db'.cases[c] == db.cases[c])
  }

  lemma AddedRowsEvolve(db: RunDb, db': RunDb, run: TestRun, rows: map<Id, TestRunCase>)
    requires run.id !in db.runs && forall c :: c in rows ==> c !in db.cases
    requires db'.runs == db.runs[run.id := run] && db'.cases == db.cases + rows
    ensures Evolves(db, db')
  {
  }

  lemma CreateEvolves(db: RunDb, userId: Id, dto: CreateRunDto)
    requires Coherent(db)
    ensures Evolves(db, Created(db, userId, dto).0)
  {
    var (db', r) := Created(db, userId, dto);
    if r.Ok? {
      hide Selected, NewCases, AssigneeProblem, Coherent, Evolves;
      IdsBelowNext(db);
      NewCasesAreFirstRows(db.nextId, Selected(db.testCases, dto));
      AddedRowsEvolve(db, db', r.value, NewCases(db.nextId, Selected(db.testCases, dto)));
    }
  }

  lemma AssignEvolves(db: RunDb, runId: Id, userIds: seq<Id>)
    ensures Evolves(db, AssigneesSet(db, runId, userIds).0)
  {
  }

  lemma SourcesEvolve(db: RunDb, change: SourceChange)
    ensures Evolves(db, SourcesChanged(db, change))
  {
  }

  lemma RecordEvolves(db: RunDb, runId: Id, caseId: Id, userId: Id, result: RunCaseResult, comment: Option<string>,
                      now: int)
    ensures Evolves(db, Recorded(db, runId, caseId, userId, result, comment, now).0)
  {
  }

  lemma StatusEvolves(db: RunDb, runId: Id, target: RunStatus, now: int)
    requires Coherent(db)
    ensures Evolves(db, StatusSet(db, runId, target, now).0)
  {
    if runId in db.runs { assert RunSound(db, runId); }
  }

  lemma StepEvolves(db: RunDb, op: RunOp)
    requires Coherent(db)
    ensures Evolves(db, Step(db, op))
  {
    hide Evolves, Created, Recorded, StatusSet, AssigneesSet, Coherent;
    match op
    case CreateOp(userId, dto) => CreateEvolves(db, userId, dto);
    case RecordOp(runId, caseId, userId, result, comment, now) =>
      RecordEvolves(db, runId, caseId, userId, result, comment, now);
    case StatusOp(runId, target, now) => StatusEvolves(db, runId, target, now);
    case AssignOp(runId, userIds) => AssignEvolves(db, runId, userIds);
    case SourceOp(change) => SourcesEvolve(db, change);
  }

  lemma EvolvesTransitive(a: RunDb, b: RunDb, c: RunDb)
    requires Evolves(a, b) && Evolves(b, c)
    ensures Evolves(a, c)
  {
  }

  /** Between any two moments of any run of the system. */
  lemma {:induction false} RunsEvolve(db: RunDb, ops: seq<RunOp>)
    requires Coherent(db)
    ensures Evolves(db, Run(db, ops))
    decreases |ops|
  {
    if ops != [] {
      StepKeepsCoherent(db, ops[0]);
      StepEvolves(db, ops[0]);
      RunsEvolve(Step(db, ops[0]), ops[1..]);
      EvolvesTransitive(db, Step(db, ops[0]), Run(db, ops));
    }
  }

  /** Replacing the assignees of a run: afterwards exactly the named users are assigned to
      it, every other run keeps its own, and it is refused unless all are members named once. */
  lemma AssigneesReplaced(db: RunDb, runId: Id, userIds: seq<Id>, r: Id, user: Id)
    ensures var (db', reply) := AssigneesSet(db, runId, userIds);
            && (reply.Ok? <==> runId in db.runs && AsSet(userIds) <= db.members && |AsSet(userIds)| == |userIds|)
            && (reply.Ok? ==> ((r, user) in db'.assignees <==>
                               if r == runId then user in userIds else (r, user) in db.assignees))
            && (reply.Err? ==> db' == db)
  {
  }

  // ----- what a call stores -----

  lemma {:induction false} DistinctBySize(ids: seq<Id>)
    ensures |AsSet(ids)| <= |ids|
    ensures |AsSet(ids)| == |ids| <==> forall i, j :: 0 <= i < j < |ids| ==> ids[i] != ids[j]
  {
    if ids != [] {
      var n := |ids| - 1;
      var rest, last := ids[..n], ids[n];
      DistinctBySize(rest);
      assert forall x :: x in ids <==> x in rest || x == last;
      assert AsSet(ids) == AsSet(rest) + {last};
      assert last in rest <==> exists i :: 0 <= i < n && ids[i] == last;
      hide AsSet;
      assert |AsSet(ids)| == |AsSet(rest)| + if last in AsSet(rest) then 0 else 1;
      assert last in AsSet(rest) <==> last in rest by { SetHolds(rest, last); }
      if forall i, j :: 0 <= i < j < n ==> rest[i] != rest[j] {
        assert last !in rest ==> forall i, j :: 0 <= i < j < |ids| ==> ids[i] != ids[j];
      }
    }
  }

  lemma SetHolds(ids: seq<Id>, x: Id)
    ensures x in AsSet(ids) <==> x in ids
  {
  }

  /** When a creation is refused, and with which error: no case chosen, somebody who is no
      member, or a user named twice; nothing is stored then. */
  lemma CreateRefusedIff(db: RunDb, userId: Id, dto: CreateRunDto)
    ensures var (after, reply) := Created(db, userId, dto);
            var chosen := exists c :: c in db.testCases && (c.suiteId in dto.suiteIds || c.id in dto.caseIds);
            var members := forall u :: u in dto.assigneeIds ==> u in db.members;
            var distinct := forall i, j :: 0 <= i < j < |dto.assigneeIds| ==> dto.assigneeIds[i] != dto.assigneeIds[j];
            && (reply.Err? ==> after == db)
            && (!chosen <==> reply == Err(RunNoCases))
            && (chosen && !members <==> reply == Err(NotFound))
            && (chosen && members && !distinct <==> reply == Err(UniqueViolation))
            && (chosen && members && distinct <==> reply.Ok?)
  {
    SelectedSome(db.testCases, dto);
    DistinctBySize(dto.assigneeIds);
    hide Selected, NewCases;
  }

  lemma {:induction false} SelectedSome(testCases: seq<TestCase>, dto: CreateRunDto)
    ensures Selected(testCases, dto) != [] <==>
            exists c :: c in testCases && (c.suiteId in dto.suiteIds || c.id in dto.caseIds)
  {
    if testCases != [] {
      SelectedSome(testCases[1..], dto);
      assert forall c :: c in testCases <==> c == testCases[0] || c in testCases[1..];
    }
  }

  /** An accepted creation stores a planned run with a fresh id, the request's name and
      creator and no dates, and assigns exactly the named users to it. */
  lemma CreateStoresRequest(db: RunDb, userId: Id, dto: CreateRunDto, r: Id, user: Id)
    requires Created(db, userId, dto).1.Ok?
    ensures var (after, reply) := Created(db, userId, dto);
            var run, n := reply.value, |Selected(db.testCases, dto)|;
            && run.id == db.nextId && run.name == dto.name && run.createdById == userId && run.status == PLANNED
            && run.startedAt == None && run.completedAt == None && run.counters == Counters(n, 0, 0, 0, 0)
            && after.runs == db.runs[db.nextId := run]
            && ((r, user) in after.assignees <==> (r, user) in db.assignees || (r == run.id && user in dto.assigneeIds))
            && after.nextId == db.nextId + 1 + n && after.testCases == db.testCases
            && after.members == db.members && after.audit == db.audit + [RunCreated(run.id, n)]
  {
    hide Selected, NewCases;
  }

  lemma CreateAddsRows(db: RunDb, userId: Id, dto: CreateRunDto)
    requires Created(db, userId, dto).1.Ok?
    ensures Created(db, userId, dto).0.cases == db.cases + NewCases(db.nextId, Selected(db.testCases, dto))
  {
    hide Selected, NewCases;
  }

  /** The case rows of an accepted creation are pending copies of the chosen cases, numbered in
      order after the run. */
  lemma CreateStoresCases(db: RunDb, userId: Id, dto: CreateRunDto, i: nat)
    requires Created(db, userId, dto).1.Ok? && i < |Selected(db.testCases, dto)|
    ensures var after, source := Created(db, userId, dto).0, Selected(db.testCases, dto)[i];
            var c := db.nextId + 1 + i;
            && c in after.cases
            && after.cases[c] == TestRunCase(c, db.nextId, Snapshot(source.id, source.title, source.body), i, PENDING,
                                             None, None, None)
  {
    hide Selected, NewCases, Created;
    CreateAddsRows(db, userId, dto);
    NewCasesCopyChosen(db.nextId, Selected(db.testCases, dto), i);
  }

  /** Rows with other ids stay as they are. */
  lemma CreateKeepsOtherCases(db: RunDb, userId: Id, dto: CreateRunDto, c: Id)
    requires Created(db, userId, dto).1.Ok?
    requires c <= db.nextId || c > db.nextId + |Selected(db.testCases, dto)|
    ensures var after := Created(db, userId, dto).0;
            (c in after.cases <==> c in db.cases) && (c in after.cases ==> after.cases[c] == db.cases[c])
  {
    hide Selected, NewCases, Created;
    CreateAddsRows(db, userId, dto);
    NewCasesAreFirstRows(db.nextId, Selected(db.testCases, dto));
  }

  /** Everything a recording does: when it is refused and why, and for an accepted one which
      fields of the case change and to what, and that only the run's counters move. */
  lemma RecordStoresRequest(db: RunDb, runId: Id, caseId: Id, userId: Id, result: RunCaseResult,
                            comment: Option<string>, now: int)
    ensures var (after, reply) := Recorded(db, runId, caseId, userId, result, comment, now);
            && (reply.Err? ==> after == db && reply.error in {NotFound, RunNotInProgress})
            && (reply == Err(RunNotInProgress) <==> runId in db.runs && db.runs[runId].status != IN_PROGRESS)
            && (reply.Ok? <==> runId in db.runs && db.runs[runId].status == IN_PROGRESS
                               && caseId in db.cases && db.cases[caseId].testRunId == runId)
            && (reply.Ok? ==>
                  var before, row := db.cases[caseId], reply.value.updatedCase;
                  var run := reply.value.updatedRun;
                  && after.cases == db.cases[caseId := row] && after.runs == db.runs[runId := run]
                  && row.id == before.id && row.testRunId == before.testRunId && row.snapshot == before.snapshot
                  && row.position == before.position && row.result == result
                  && (comment.Some? ==> row.comment == comment) && (comment.None? ==> row.comment == before.comment)
                  && (result == PENDING ==> row.recordedById == None && row.recordedAt == None)
                  && (result != PENDING ==> row.recordedById == Some(userId) && row.recordedAt == Some(now))
                  && run == db.runs[runId].(counters := run.counters)
                  && run.counters.total == db.runs[runId].counters.total
                  && (forall f :: run.counters.Get(f) == db.runs[runId].counters.Get(f)
                        + (if FieldOf(result) == Some(f) then 1 else 0)
                        - (if FieldOf(before.result) == Some(f) then 1 else 0))
                  && reply.value.previousResult == before.result
                  && after.assignees == db.assignees && after.testCases == db.testCases && after.members == db.members
                  && after.nextId == db.nextId
                  && after.audit == db.audit + [ResultRecorded(caseId, before.result, result)])
  {
    if runId in db.runs && caseId in db.cases {
      var c := Shift(db.runs[runId].counters, db.cases[caseId].result, result);
      assert Shifted(db.runs[runId].counters, db.cases[caseId].result, result, c);
      hide Counters.Get;
    }
  }

  /** Everything a status change does: the four transitions, and the two dates. */
  lemma StatusStoresRequest(db: RunDb, runId: Id, target: RunStatus, now: int)
    ensures var (after, reply) := StatusSet(db, runId, target, now);
            && (reply.Err? ==> after == db && reply.error in {NotFound, RunInvalidTransition})
            && (reply == Err(NotFound) <==> runId !in db.runs)
            && (reply.Ok? <==> runId in db.runs
                               && (db.runs[runId].status, target) in {(PLANNED, IN_PROGRESS), (PLANNED, ABORTED),
                                                                      (IN_PROGRESS, COMPLETED), (IN_PROGRESS, ABORTED)})
            && (reply.Ok? ==>
                  var before, run := db.runs[runId], reply.value;
                  && after.runs == db.runs[runId := run] && run.status == target
                  && run.id == before.id && run.name == before.name && run.createdById == before.createdById
                  && run.counters == before.counters
                  && run.startedAt ==
                     (if target == IN_PROGRESS && before.startedAt.None? then Some(now) else before.startedAt)
                  && run.completedAt == (if target == IN_PROGRESS then before.completedAt else Some(now))
                  && after.audit == db.audit + [StatusChanged(runId, before.status, target)]
                  && after == db.(runs := after.runs, audit := after.audit))
  {
  }

  /** What an edit, an addition and a change of members do; deletions are RemainingExactly. */
  lemma SourcesStoreRequest(db: RunDb, change: SourceChange, i: nat)
    ensures var after := SourcesChanged(db, change);
            && (change.AddCase? ==>
                  after.testCases == db.testCases + [TestCase(db.nextId, change.suiteId, change.title, change.body)])
            && (change.EditCase? ==>
                  && |after.testCases| == |db.testCases|
                  && (i < |db.testCases| ==>
                        var before, c := db.testCases[i], after.testCases[i];
                        && (before.id != change.id ==> c == before)
                        && (before.id == change.id ==>
                              && c.id == before.id
                              && c.suiteId == (if change.newSuite.Some? then change.newSuite.value else before.suiteId)
                              && c.title == (if change.newTitle.Some? then change.newTitle.value else before.title)
                              && c.body == (if change.newBody.Some? then change.newBody.value else before.body))))
            && (change.SetMembers? ==> after.testCases == db.testCases && after.members == change.members)
            && (!change.SetMembers? ==> after.members == db.members)
  {
  }
}
