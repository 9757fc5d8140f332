/** Recordings and status changes whose reads and writes are separate steps, interleaved
    freely with each other and with every other call on runs: when the tables stay coherent
    and only move forward, and when a finished run stays as it is. */
module RunRaces {
  import opened Domain
  import opened RunCounters
  import opened RunsService

  type CallId = nat

  datatype Recording = Recording(runId: Id, caseId: Id, userId: Id, result: RunCaseResult, comment: Option<string>)

  /** A call between its steps: a recording that has seen its run in progress, one that has
      also read the result its case had, or a status change that has read its run. */
  datatype Pending =
    | RunSeen(what: Recording)
    | CaseSeen(what: Recording, previous: RunCaseResult)
    | Moving(read: TestRun, target: RunStatus)

  datatype Floor = Floor(db: RunDb, open: map<CallId, Pending>)

  datatype Event =
    | ReadsRun(call: CallId, what: Recording)
    | ReadsCase(call: CallId)
    | WritesCase(call: CallId, now: int)
    | ReadsStatus(call: CallId, runId: Id, target: RunStatus)
    | WritesStatus(call: CallId, now: int)
    | Whole(op: RunOp)

  // ----- the writes -----

  function CaseRow(row: TestRunCase, what: Recording, now: int): TestRunCase {
    Rerecorded(row, what.userId, what.result, what.comment, now)
  }

  /** The counters are shifted by what was read, on the row as it is now. */
  function Counted(run: TestRun, what: Recording, previous: RunCaseResult): TestRun {
    run.(counters := Shift(run.counters, previous, what.result))
  }

  /** The dates follow the row that was read; fields that are not written are kept. */
  function Moved(run: TestRun, read: TestRun, target: RunStatus, now: int): TestRun {
    run.(status := target,
         startedAt := if target == IN_PROGRESS && read.startedAt.None? then Some(now) else run.startedAt,
         completedAt := if Terminal(target) then Some(now) else run.completedAt)
  }

  predicate HasRows(db: RunDb, what: Recording) {
    what.runId in db.runs && what.caseId in db.cases
  }

  function CaseWritten(db: RunDb, what: Recording, previous: RunCaseResult, now: int): RunDb {
    if !HasRows(db, what) then db
    else
      db.(cases := db.cases[what.caseId := CaseRow(db.cases[what.caseId], what, now)],
          runs := db.runs[what.runId := Counted(db.runs[what.runId], what, previous)],
          audit := db.audit + [ResultRecorded(what.caseId, previous, what.result)])
  }

  function StatusWritten(db: RunDb, read: TestRun, target: RunStatus, now: int): RunDb {
    if read.id !in db.runs then db
    else
      db.(runs := db.runs[read.id := Moved(db.runs[read.id], read, target, now)],
          audit := db.audit + [StatusChanged(read.id, read.status, target)])
  }

  // ----- the machine -----

  /** An event whose call is not at that point changes nothing; a call that is refused at a
      read is closed or never opened. */
  function Next(s: Floor, e: Event): Floor {
    match e
    case ReadsRun(call, what) =>
      if call in s.open || what.runId !in s.db.runs || s.db.runs[what.runId].status != IN_PROGRESS then s
      else s.(open := s.open[call := RunSeen(what)])
    case ReadsCase(call) =>
      if call !in s.open || !s.open[call].RunSeen? then s
      else
        var what := s.open[call].what;
        if what.caseId !in s.db.cases || s.db.cases[what.caseId].testRunId != what.runId
        then s.(open := s.open - {call})
        else s.(open := s.open[call := CaseSeen(what, s.db.cases[what.caseId].result)])
    case WritesCase(call, now) =>
      if call !in s.open || !s.open[call].CaseSeen? then s
      else Floor(CaseWritten(s.db, s.open[call].what, s.open[call].previous, now), s.open - {call})
    case ReadsStatus(call, runId, target) =>
      if call in s.open || runId !in s.db.runs || !ValidTransition(s.db.runs[runId].status, target) then s
      else s.(open := s.open[call := Moving(s.db.runs[runId], target)])
    case WritesStatus(call, now) =>
      if call !in s.open || !s.open[call].Moving? then s
      else Floor(StatusWritten(s.db, s.open[call].read, s.open[call].target, now), s.open - {call})
    case Whole(op) => s.(db := Step(s.db, op))
  }

  /** The state after the first k events. */
  function StateAt(s: Floor, events: seq<Event>, k: nat): Floor
    requires k <= |events|
  {
    if k == 0 then s else Next(StateAt(s, events, k - 1), events[k - 1])
  }

  lemma StateAtStart(s: Floor, events: seq<Event>)
    ensures StateAt(s, events, 0) == s
  {
  }

  lemma StateAfter(s: Floor, events: seq<Event>, k: nat)
    requires k < |events|
    ensures StateAt(s, events, k + 1) == Next(StateAt(s, events, k), events[k])
  {
  }

  predicate Records(s: Floor, e: Event) {
    e.WritesCase? && e.call in s.open && s.open[e.call].CaseSeen? && HasRows(s.db, s.open[e.call].what)
  }

  predicate Moves(s: Floor, e: Event) {
    e.WritesStatus? && e.call in s.open && s.open[e.call].Moving? && s.open[e.call].read.id in s.db.runs
  }

  // ----- the guard of one write -----

  /** The dates and the status of a run fit together. */
  predicate DatesFit(run: TestRun) {
    && (run.completedAt.Some? <==> Terminal(run.status))
    && (run.status == PLANNED ==> run.startedAt.None?)
    && (run.status == IN_PROGRESS || run.status == COMPLETED ==> run.startedAt.Some?)
  }

  /** A late status write respects the lifecycle if and only if its transition is still
      allowed, or it happens to write what is already there. */
  lemma MoveInTimeIff(run: TestRun, read: TestRun, target: RunStatus, now: int)
    requires DatesFit(run) && DatesFit(read) && StatusReaches(read.status, run.status)
    requires ValidTransition(read.status, target)
    ensures var moved := Moved(run, read, target, now);
            RunEvolves(run, moved) && DatesFit(moved) <==> ValidTransition(run.status, target) || moved == run
  {
  }

  /** An open call still belongs to its rows, and its run has not gone back. */
  ghost predicate Fits(db: RunDb, p: Pending) {
    match p
    case RunSeen(what) => what.runId in db.runs && db.runs[what.runId].status != PLANNED
    case CaseSeen(what, _) =>
      && what.runId in db.runs && db.runs[what.runId].status != PLANNED
      && what.caseId in db.cases && db.cases[what.caseId].testRunId == what.runId
    case Moving(read, target) =>
      && read.id in db.runs && DatesFit(read) && ValidTransition(read.status, target)
      && StatusReaches(read.status, db.runs[read.id].status)
  }

  ghost predicate OpenFits(s: Floor) {
    forall c :: c in s.open ==> Fits(s.db, s.open[c])
  }

  /** The tables are coherent after a step and have only moved forward. */
  ghost predicate Kept(db: RunDb, db': RunDb) {
    Coherent(db') && Evolves(db, db')
  }

  ghost predicate MoveInTime(db: RunDb, read: TestRun, target: RunStatus, now: int) {
    read.id in db.runs ==>
      var run := db.runs[read.id];
      ValidTransition(run.status, target) || Moved(run, read, target, now) == run
  }

  ghost predicate RecordInTime(db: RunDb, what: Recording, previous: RunCaseResult, now: int) {
    HasRows(db, what) ==>
      var row := db.cases[what.caseId];
      row.result == previous && (Terminal(db.runs[what.runId].status) ==> CaseRow(row, what, now) == row)
  }

  lemma OneRunEvolvesIff(db: RunDb, r: Id, run': TestRun, db': RunDb)
    requires r in db.runs && db'.runs == db.runs[r := run'] && db'.cases == db.cases
    ensures Evolves(db, db') <==> RunEvolves(db.runs[r], run')
  {
    assert db'.runs[r] == run';
  }

  lemma MovedRunSoundIff(db: RunDb, r: Id, moved: TestRun, db': RunDb)
    requires Coherent(db) && r in db.runs && moved.id == r && moved.counters == db.runs[r].counters
    requires moved.status != PLANNED && db'.runs == db.runs[r := moved]
    requires db'.nextId == db.nextId && db'.cases == db.cases
    ensures Coherent(db') <==> DatesFit(moved)
  {
    assert RunSound(db, r);
    SameCountersExact(db.cases, db.runs[r], moved);
    hide CountersExact;
    assert db'.runs[r] == moved;
    if Coherent(db') { assert RunSound(db', r); }
    if DatesFit(moved) {
      forall q | q in db'.runs ensures RunSound(db', q) { assert RunSound(db, q); }
      forall c | c in db'.cases ensures CaseSound(db', c) { assert CaseSound(db, c); }
    }
  }

  lemma CoherentDates(db: RunDb, r: Id)
    requires Coherent(db) && r in db.runs
    ensures DatesFit(db.runs[r]) && db.runs[r].id == r
  {
    assert RunSound(db, r);
  }

  lemma MoveKeptIff(db: RunDb, read: TestRun, target: RunStatus, now: int)
    requires Coherent(db) && Fits(db, Moving(read, target))
    ensures Kept(db, StatusWritten(db, read, target, now)) <==> MoveInTime(db, read, target, now)
  {
    var db' := StatusWritten(db, read, target, now);
    var run := db.runs[read.id];
    var moved := Moved(run, read, target, now);
    CoherentDates(db, read.id);
    hide Coherent, DatesFit, Evolves, RunEvolves;
    MoveInTimeIff(run, read, target, now);
    OneRunEvolvesIff(db, read.id, moved, db');
    MovedRunSoundIff(db, read.id, moved, db');
  }

  lemma SameCountersExact(cases: map<Id, TestRunCase>, run: TestRun, run': TestRun)
    requires CountersExact(cases, run) && run'.id == run.id && run'.counters == run.counters
    ensures CountersExact(cases, run')
  {
  }

  /** The number of cases per result leaves no choice for the counters. */
  lemma ExactCountersAreUnique(cases: map<Id, TestRunCase>, run: TestRun, run': TestRun)
    requires CountersExact(cases, run) && CountersExact(cases, run') && run'.id == run.id
    ensures run'.counters == run.counters
  {
    hide CasesOf, CasesWith;
    assert FieldOf(PASS).Some? && FieldOf(FAIL).Some? && FieldOf(BLOCKED).Some? && FieldOf(SKIPPED).Some?;
  }

  lemma ShiftTellsPrevious(c: Counters, a: RunCaseResult, b: RunCaseResult, after: RunCaseResult)
    requires Shift(c, a, after) == Shift(c, b, after)
    ensures a == b
  {
    match a { case PENDING => case PASS => case FAIL => case BLOCKED => case SKIPPED => }
  }

  /** Counters shifted by a result that is no longer there do not count the cases. */
  lemma ShiftExactIff(cases: map<Id, TestRunCase>, run: TestRun, c: Id, row: TestRunCase, previous: RunCaseResult)
    requires CountersExact(cases, run) && LifecycleSound(cases, run) && run.status != PLANNED
    requires c in cases && row.testRunId == cases[c].testRunId == run.id
    ensures var run' := run.(counters := Shift(run.counters, previous, row.result));
            && LifecycleSound(cases[c := row], run')
            && (CountersExact(cases[c := row], run') <==> previous == cases[c].result)
  {
    var right := run.(counters := Shift(run.counters, cases[c].result, row.result));
    var run' := run.(counters := Shift(run.counters, previous, row.result));
    RunAfterRecord(cases, run, c, row, right);
    hide CountersExact, Shift;
    if CountersExact(cases[c := row], run') {
      ExactCountersAreUnique(cases[c := row], right, run');
      ShiftTellsPrevious(run.counters, previous, cases[c].result, row.result);
    }
  }

  /** Everything a recording does besides its own run's counters and its own row. */
  lemma OtherRowsAfterRecord(db: RunDb, what: Recording, previous: RunCaseResult, now: int)
    requires Coherent(db) && Fits(db, CaseSeen(what, previous))
    ensures var db' := CaseWritten(db, what, previous, now);
            && (forall q :: q in db'.runs && q != what.runId ==> RunSound(db', q))
            && (forall c :: c in db'.cases ==> CaseSound(db', c))
  {
    var db' := CaseWritten(db, what, previous, now);
    hide CountersExact, LifecycleSound, Shift;
    assert CaseSound(db, what.caseId);
    forall q | q in db'.runs && q != what.runId ensures RunSound(db', q) {
      assert RunSound(db, q);
      OtherRunAfterRecord(db.cases, db.runs[q], what.caseId, db'.cases[what.caseId]);
    }
    forall c | c in db'.cases ensures CaseSound(db', c) { assert CaseSound(db, c); }
  }

  lemma RowsEvolveIff(db: RunDb, run: TestRun, row: TestRunCase, run': TestRun, row': TestRunCase, db': RunDb)
    requires row.testRunId in db.runs && db.runs[row.testRunId] == run && row.id in db.cases && db.cases[row.id] == row
    requires db'.cases == db.cases[row.id := row'] && db'.runs == db.runs[row.testRunId := run']
    requires CaseEvolves(row, row') && run' == run.(counters := run'.counters)
    requires run'.counters.total == run.counters.total
    ensures Evolves(db, db') <==> (Terminal(run.status) ==> run' == run && row' == row)
  {
    assert db'.runs[row.testRunId] == run' && db'.cases[row.id] == row';
    if Evolves(db, db') {
      assert RunEvolves(run, run');
    }
  }

  lemma UnchangedRowCountsAlike(row: TestRunCase, run: TestRun, what: Recording, now: int)
    requires CaseRow(row, what, now) == row
    ensures Counted(run, what, row.result) == run
  {
    assert what.result == row.result;
    assert Shift(run.counters, row.result, row.result) == run.counters;
  }

  lemma RecordEvolvesIff(db: RunDb, what: Recording, previous: RunCaseResult, now: int)
    requires Coherent(db) && Fits(db, CaseSeen(what, previous)) && db.cases[what.caseId].result == previous
    ensures var row := db.cases[what.caseId];
            Evolves(db, CaseWritten(db, what, previous, now)) <==>
              (Terminal(db.runs[what.runId].status) ==> CaseRow(row, what, now) == row)
  {
    var row, run := db.cases[what.caseId], db.runs[what.runId];
    assert CaseSound(db, what.caseId);
    if CaseRow(row, what, now) == row { UnchangedRowCountsAlike(row, run, what, now); }
    CopyIsKept(row, what, now);
    hide Shift, Coherent, CaseRow, Evolves;
    RowsEvolveIff(db, run, row, Counted(run, what, previous), CaseRow(row, what, now),
                  CaseWritten(db, what, previous, now));
  }

  lemma CopyIsKept(row: TestRunCase, what: Recording, now: int)
    ensures CaseEvolves(row, CaseRow(row, what, now))
  {
  }

  lemma RecordKeptIff(db: RunDb, what: Recording, previous: RunCaseResult, now: int)
    requires Coherent(db) && Fits(db, CaseSeen(what, previous))
    ensures Kept(db, CaseWritten(db, what, previous, now)) <==> RecordInTime(db, what, previous, now)
  {
    var db' := CaseWritten(db, what, previous, now);
    assert RunSound(db, what.runId);
    OtherRowsAfterRecord(db, what, previous, now);
    ShiftExactIff(db.cases, db.runs[what.runId], what.caseId, db'.cases[what.caseId], previous);
    if db.cases[what.caseId].result == previous { RecordEvolvesIff(db, what, previous, now); }
    hide CountersExact, LifecycleSound, Shift, Evolves, CaseRow, CaseSound;
    assert Coherent(db') <==> RunSound(db', what.runId);
  }

  // ----- every event -----

  /** The write of the event comes in time. */
  ghost predicate InTime(s: Floor, e: Event) {
    && (Records(s, e) ==> RecordInTime(s.db, s.open[e.call].what, s.open[e.call].previous, e.now))
    && (Moves(s, e) ==> MoveInTime(s.db, s.open[e.call].read, s.open[e.call].target, e.now))
  }

  lemma SameTablesKept(db: RunDb)
    requires Coherent(db)
    ensures Kept(db, db)
  {
  }

  lemma NextKeptIff(s: Floor, e: Event)
    requires Coherent(s.db) && OpenFits(s)
    ensures Kept(s.db, Next(s, e).db) <==> InTime(s, e)
  {
    hide Coherent, Evolves, Kept, CaseWritten, StatusWritten, Step, RecordInTime, MoveInTime, Fits;
    SameTablesKept(s.db);
    match e
    case WritesCase(call, now) =>
      if call in s.open && s.open[call].CaseSeen? {
        assert Fits(s.db, s.open[call]);
        FittingRows(s.db, s.open[call]);
        RecordKeptIff(s.db, s.open[call].what, s.open[call].previous, now);
      }
    case WritesStatus(call, now) =>
      if call in s.open && s.open[call].Moving? {
        assert Fits(s.db, s.open[call]);
        FittingRows(s.db, s.open[call]);
        MoveKeptIff(s.db, s.open[call].read, s.open[call].target, now);
      }
    case Whole(op) => StepIsKept(s.db, op);
    case _ =>
  }

  lemma FittingRows(db: RunDb, p: Pending)
    requires Fits(db, p)
    ensures p.CaseSeen? ==> HasRows(db, p.what)
    ensures p.Moving? ==> p.read.id in db.runs
  {
  }

  lemma StepIsKept(db: RunDb, op: RunOp)
    requires Coherent(db)
    ensures Kept(db, Step(db, op))
  {
    hide Coherent, Evolves, Step;
    StepKeepsCoherent(db, op);
    StepEvolves(db, op);
  }

  lemma EvolvedFits(db: RunDb, db': RunDb, p: Pending)
    requires Fits(db, p) && Evolves(db, db')
    ensures Fits(db', p)
  {
  }

  lemma ReadFits(db: RunDb, runId: Id, target: RunStatus)
    requires Coherent(db) && runId in db.runs && ValidTransition(db.runs[runId].status, target)
    ensures Fits(db, Moving(db.runs[runId], target))
  {
    assert RunSound(db, runId);
  }

  lemma NextKeepsFits(s: Floor, e: Event)
    requires Coherent(s.db) && OpenFits(s) && Evolves(s.db, Next(s, e).db)
    ensures OpenFits(Next(s, e))
  {
    var s' := Next(s, e);
    if e.ReadsStatus? && s' != s { ReadFits(s.db, e.runId, e.target); }
    forall c | c in s'.open ensures Fits(s'.db, s'.open[c]) {
      if c in s.open {
        assert Fits(s.db, s.open[c]);
        hide Coherent, Evolves, CaseWritten, StatusWritten, Step;
        EvolvedFits(s.db, s'.db, s.open[c]);
      }
    }
  }

  /** After every prefix the tables are coherent, and every event has moved them forward. */
  ghost predicate KeptThroughout(s: Floor, events: seq<Event>) {
    forall k :: 0 <= k < |events| ==> Kept(StateAt(s, events, k).db, StateAt(s, events, k + 1).db)
  }

  ghost predicate InTimeThroughout(s: Floor, events: seq<Event>) {
    forall k :: 0 <= k < |events| ==> InTime(StateAt(s, events, k), events[k])
  }

  lemma {:induction false} KeptFits(s: Floor, events: seq<Event>, k: nat)
    requires Coherent(s.db) && OpenFits(s) && k <= |events|
    requires forall j :: 0 <= j < k ==> Kept(StateAt(s, events, j).db, StateAt(s, events, j + 1).db)
    ensures Coherent(StateAt(s, events, k).db) && OpenFits(StateAt(s, events, k))
    ensures Evolves(s.db, StateAt(s, events, k).db)
  {
    hide Coherent, OpenFits, Evolves, Next;
    if k == 0 {
      EvolvesItself(s.db);
    } else {
      KeptFits(s, events, k - 1);
      StateAfter(s, events, k - 1);
      assert Kept(StateAt(s, events, k - 1).db, StateAt(s, events, k - 1 + 1).db);
      NextKeepsFits(StateAt(s, events, k - 1), events[k - 1]);
      EvolvesTransitive(s.db, StateAt(s, events, k - 1).db, StateAt(s, events, k).db);
    }
  }

  lemma EvolvesItself(db: RunDb)
    ensures Evolves(db, db)
  {
  }

  lemma {:induction false} InTimeKeeps(s: Floor, events: seq<Event>, k: nat)
    requires Coherent(s.db) && OpenFits(s) && k < |events|
    requires forall j :: 0 <= j <= k ==> InTime(StateAt(s, events, j), events[j])
    ensures Kept(StateAt(s, events, k).db, StateAt(s, events, k + 1).db)
  {
    hide Coherent, OpenFits, Kept, InTime, Next;
    forall j | 0 <= j < k ensures Kept(StateAt(s, events, j).db, StateAt(s, events, j + 1).db) {
      InTimeKeeps(s, events, j);
    }
    KeptFits(s, events, k);
    StateAfter(s, events, k);
    NextKeptIff(StateAt(s, events, k), events[k]);
  }

  /** Over every interleaving: after every prefix the tables are coherent and have only moved
      forward if and only if each recording still finds the result it read and, on a
      finished run, changes nothing, and each status change is still allowed or changes
      nothing. */
  lemma KeptThroughoutIff(s: Floor, events: seq<Event>)
    requires Coherent(s.db) && OpenFits(s)
    ensures KeptThroughout(s, events) <==> InTimeThroughout(s, events)
  {
    hide Coherent, OpenFits, Kept, InTime, Next;
    if KeptThroughout(s, events) {
      forall k | 0 <= k < |events| ensures InTime(StateAt(s, events, k), events[k]) {
        KeptFits(s, events, k);
        StateAfter(s, events, k);
        assert Kept(StateAt(s, events, k).db, StateAt(s, events, k + 1).db);
        NextKeptIff(StateAt(s, events, k), events[k]);
      }
    }
    if InTimeThroughout(s, events) {
      forall k | 0 <= k < |events| ensures Kept(StateAt(s, events, k).db, StateAt(s, events, k + 1).db) {
        InTimeKeeps(s, events, k);
      }
    }
  }

  /** What that gives between any moment and the start. */
  lemma InTimeEvolves(s: Floor, events: seq<Event>, k: nat)
    requires Coherent(s.db) && OpenFits(s) && InTimeThroughout(s, events) && k <= |events|
    ensures Coherent(StateAt(s, events, k).db) && Evolves(s.db, StateAt(s, events, k).db)
  {
    hide Coherent, OpenFits, Evolves, Next, InTime, Kept;
    KeptThroughoutIff(s, events);
    KeptFits(s, events, k);
  }

  // ----- one finished run -----

  /** Ids are below the next one and rows carry their own id; nothing is said of results,
      dates or counters, which overlapping calls on other runs may have ruined. */
  ghost predicate Structured(db: RunDb) {
    && (forall r :: r in db.runs ==> r < db.nextId && db.runs[r].id == r)
    && (forall c :: c in db.cases ==> c < db.nextId && db.cases[c].testRunId in db.runs)
  }

  /** An open call points at rows of its own run. */
  ghost predicate Owns(db: RunDb, p: Pending) {
    match p
    case RunSeen(what) => what.runId in db.runs
    case CaseSeen(what, _) => HasRows(db, what) && db.cases[what.caseId].testRunId == what.runId
    case Moving(read, _) => read.id in db.runs
  }

  ghost predicate Orderly(s: Floor) {
    Structured(s.db) && forall c :: c in s.open ==> Owns(s.db, s.open[c])
  }

  /** The run and all its cases, recorders, dates and comments included, are the same. */
  ghost predicate SameRun(db: RunDb, db': RunDb, r: Id) {
    && r in db.runs && r in db'.runs && db'.runs[r] == db.runs[r]
    && CasesOf(db'.cases, r) == CasesOf(db.cases, r)
    && forall c :: c in CasesOf(db.cases, r) ==> db'.cases[c] == db.cases[c]
  }

  /** No table loses a row and no case changes its run. */
  ghost predicate Grows(db: RunDb, db': RunDb) {
    && (forall r :: r in db.runs ==> r in db'.runs)
    && (forall c :: c in db.cases ==> c in db'.cases && db'.cases[c].testRunId == db.cases[c].testRunId)
  }

  lemma AddedRowsKeepStructure(db: RunDb, run: TestRun, rows: map<Id, TestRunCase>, db': RunDb)
    requires Structured(db) && run.id == db.nextId < db'.nextId
    requires forall c :: c in rows ==> db.nextId < c < db'.nextId && rows[c].testRunId == run.id
    requires db'.runs == db.runs[run.id := run] && db'.cases == db.cases + rows
    ensures Structured(db') && Grows(db, db')
    ensures forall r :: r in db.runs ==> SameRun(db, db', r)
  {
    assert forall c :: c in rows ==> c !in db.cases;
    forall q | q in db.runs ensures SameRun(db, db', q) {
      OtherRunsCases(db.cases, rows, q);
      assert forall c :: c in CasesOf(db.cases, q) ==> c in db.cases;
    }
  }

  lemma CreateKeepsStructure(db: RunDb, userId: Id, dto: CreateRunDto)
    requires Structured(db)
    ensures Structured(Created(db, userId, dto).0) && Grows(db, Created(db, userId, dto).0)
    ensures forall r :: r in db.runs ==> SameRun(db, Created(db, userId, dto).0, r)
  {
    var (db', r) := Created(db, userId, dto);
    if r.Ok? {
      var rows := NewCases(db.nextId, Selected(db.testCases, dto));
      assert db'.cases == db.cases + rows && db'.runs == db.runs[db.nextId := r.value] && r.value.id == db.nextId;
      assert db'.nextId == db.nextId + 1 + |Selected(db.testCases, dto)|;
      hide Selected, NewCases, Created, Structured, SameRun, Grows;
      NewCasesAreFirstRows(db.nextId, Selected(db.testCases, dto));
      AddedRowsKeepStructure(db, r.value, rows, db');
    } else {
      hide Selected, NewCases, Created;
    }
  }

  lemma StepKeepsStructure(db: RunDb, op: RunOp)
    requires Structured(db)
    ensures Structured(Step(db, op)) && Grows(db, Step(db, op))
  {
    hide Created, Shift, AssigneeProblem, Remaining;
    match op
    case CreateOp(userId, dto) => CreateKeepsStructure(db, userId, dto);
    case RecordOp(_, _, _, _, _, _) => RecordKeepsStructure(db, op);
    case StatusOp(_, _, _) => hide Recorded, AssigneesSet, SourcesChanged;
    case _ => hide Recorded, StatusSet;
  }

  lemma RecordKeepsStructure(db: RunDb, op: RunOp)
    requires Structured(db) && op.RecordOp?
    ensures Structured(Step(db, op)) && Grows(db, Step(db, op))
  {
    hide Created, Shift, StatusSet, AssigneesSet, SourcesChanged;
  }

  /** A call that takes effect at once cannot touch a finished run. */
  lemma StepKeepsFinished(db: RunDb, op: RunOp, r: Id)
    requires Structured(db) && r in db.runs && Terminal(db.runs[r].status)
    ensures SameRun(db, Step(db, op), r)
  {
    if op.CreateOp? {
      CreateKeepsStructure(db, op.userId, op.create);
    } else {
      hide Shift, Rerecorded;
    }
  }

  lemma WriteKeepsStructure(db: RunDb, p: Pending, now: int)
    requires Structured(db) && Owns(db, p)
    ensures p.CaseSeen? ==> var db' := CaseWritten(db, p.what, p.previous, now); Structured(db') && Grows(db, db')
    ensures p.Moving? ==> var db' := StatusWritten(db, p.read, p.target, now); Structured(db') && Grows(db, db')
  {
    hide Shift;
  }

  lemma NextKeepsOrderly(s: Floor, e: Event)
    requires Orderly(s)
    ensures Orderly(Next(s, e)) && Grows(s.db, Next(s, e).db)
  {
    var s' := Next(s, e);
    if (e.WritesCase? || e.WritesStatus?) && e.call in s.open {
      assert Owns(s.db, s.open[e.call]);
      WriteKeepsStructure(s.db, s.open[e.call], e.now);
    }
    if e.Whole? { StepKeepsStructure(s.db, e.op); }
    hide Structured, CaseWritten, StatusWritten, Step;
    forall c | c in s'.open ensures Owns(s'.db, s'.open[c]) {
      if c in s.open { assert Owns(s.db, s.open[c]); }
    }
  }

  /** The write of the event, if it is about run r, changes neither the run nor the case. */
  ghost predicate Spares(s: Floor, e: Event, r: Id) {
    && (Records(s, e) && s.open[e.call].what.runId == r ==>
          var p := s.open[e.call];
          && CaseRow(s.db.cases[p.what.caseId], p.what, e.now) == s.db.cases[p.what.caseId]
          && Counted(s.db.runs[r], p.what, p.previous) == s.db.runs[r])
    && (Moves(s, e) && s.open[e.call].read.id == r ==>
          Moved(s.db.runs[r], s.open[e.call].read, s.open[e.call].target, e.now) == s.db.runs[r])
  }

  lemma RecordSparesIff(db: RunDb, what: Recording, previous: RunCaseResult, now: int, r: Id)
    requires HasRows(db, what) && db.cases[what.caseId].testRunId == what.runId && r in db.runs
    ensures SameRun(db, CaseWritten(db, what, previous, now), r) <==>
            (what.runId == r ==>
               && CaseRow(db.cases[what.caseId], what, now) == db.cases[what.caseId]
               && Counted(db.runs[r], what, previous) == db.runs[r])
  {
    var db' := CaseWritten(db, what, previous, now);
    CopyIsKept(db.cases[what.caseId], what, now);
    hide CaseRow, Counted;
    if what.runId == r { assert what.caseId in CasesOf(db.cases, r); }
  }

  lemma NextSparesIff(s: Floor, e: Event, r: Id)
    requires Orderly(s) && r in s.db.runs && Terminal(s.db.runs[r].status)
    ensures SameRun(s.db, Next(s, e).db, r) <==> Spares(s, e, r)
  {
    match e
    case WritesCase(call, now) =>
      if call in s.open && s.open[call].CaseSeen? {
        assert Owns(s.db, s.open[call]);
        hide CaseWritten, CaseRow, Counted, Structured;
        RecordSparesIff(s.db, s.open[call].what, s.open[call].previous, now, r);
      }
    case WritesStatus(call, _) =>
      if call in s.open && s.open[call].Moving? {
        assert Owns(s.db, s.open[call]);
        hide Moved, Structured;
      }
    case Whole(op) =>
      hide Step;
      StepKeepsFinished(s.db, op, r);
    case _ =>
  }

  /** The run is the same after every prefix. */
  ghost predicate FrozenThroughout(s: Floor, events: seq<Event>, r: Id) {
    forall k :: 0 <= k <= |events| ==> SameRun(s.db, StateAt(s, events, k).db, r)
  }

  ghost predicate SparedThroughout(s: Floor, events: seq<Event>, r: Id) {
    forall k :: 0 <= k < |events| ==> Spares(StateAt(s, events, k), events[k], r)
  }

  lemma {:induction false} StaysOrderly(s: Floor, events: seq<Event>, k: nat)
    requires Orderly(s) && k <= |events|
    ensures Orderly(StateAt(s, events, k))
  {
    hide Orderly, Next;
    if k > 0 {
      StaysOrderly(s, events, k - 1);
      NextKeepsOrderly(StateAt(s, events, k - 1), events[k - 1]);
    }
  }

  lemma SameRunComposes(a: RunDb, b: RunDb, c: RunDb, r: Id)
    requires SameRun(a, b, r)
    ensures SameRun(b, c, r) <==> SameRun(a, c, r)
  {
  }

  lemma {:induction false} SparedStaysFrozen(s: Floor, events: seq<Event>, r: Id, k: nat)
    requires Orderly(s) && r in s.db.runs && Terminal(s.db.runs[r].status) && k <= |events|
    requires forall j :: 0 <= j < k ==> Spares(StateAt(s, events, j), events[j], r)
    ensures SameRun(s.db, StateAt(s, events, k).db, r)
  {
    hide Orderly, Next, Spares;
    if k > 0 {
      SparedStaysFrozen(s, events, r, k - 1);
      var t := StateAt(s, events, k - 1);
      assert r in t.db.runs && t.db.runs[r] == s.db.runs[r];
      StaysOrderly(s, events, k - 1);
      StateAfter(s, events, k - 1);
      hide SameRun, Terminal;
      NextSparesIff(t, events[k - 1], r);
      SameRunComposes(s.db, t.db, StateAt(s, events, k).db, r);
    }
  }

  /** A finished run and its case rows stay as they are through every interleaving if and
      only if no recording that is still open changes its row or the counters and no status
      change that is still open changes the run. */
  lemma FrozenThroughoutIff(s: Floor, events: seq<Event>, r: Id)
    requires Orderly(s) && r in s.db.runs && Terminal(s.db.runs[r].status)
    ensures FrozenThroughout(s, events, r) <==> SparedThroughout(s, events, r)
  {
    if FrozenThroughout(s, events, r) {
      hide Orderly, Next, Spares;
      forall k | 0 <= k < |events| ensures Spares(StateAt(s, events, k), events[k], r) {
        var t := StateAt(s, events, k);
        StaysOrderly(s, events, k);
        StateAfter(s, events, k);
        assert SameRun(s.db, t.db, r) && SameRun(s.db, StateAt(s, events, k + 1).db, r);
        SameRunComposes(s.db, t.db, StateAt(s, events, k + 1).db, r);
        NextSparesIff(t, events[k], r);
      }
    }
    if SparedThroughout(s, events, r) {
      hide Orderly, Next, Spares, SameRun;
      forall k | 0 <= k <= |events| ensures SameRun(s.db, StateAt(s, events, k).db, r) {
        SparedStaysFrozen(s, events, r, k);
      }
    }
  }

  // ----- a condition to be met when the run finishes -----

  function RunOf(p: Pending): Id {
    match p
    case RunSeen(what) => what.runId
    case CaseSeen(what, _) => what.runId
    case Moving(read, _) => read.id
  }

  ghost predicate NothingOpen(s: Floor, r: Id) {
    forall c :: c in s.open ==> RunOf(s.open[c]) != r
  }

  lemma NextOpensNothing(s: Floor, e: Event, r: Id)
    requires Orderly(s) && r in s.db.runs && Terminal(s.db.runs[r].status) && NothingOpen(s, r)
    ensures Spares(s, e, r) && NothingOpen(Next(s, e), r)
  {
    hide CaseWritten, StatusWritten, Step;
  }

  /** A run that finishes while no recording and no status change of it is open stays as it
      is, whatever follows. */
  lemma {:induction false} FinishedAloneStaysFrozen(s: Floor, events: seq<Event>, r: Id, k: nat)
    requires Orderly(s) && r in s.db.runs && Terminal(s.db.runs[r].status) && NothingOpen(s, r) && k <= |events|
    ensures SameRun(s.db, StateAt(s, events, k).db, r) && NothingOpen(StateAt(s, events, k), r)
  {
    hide Orderly, Next, Spares, NothingOpen;
    if k > 0 {
      FinishedAloneStaysFrozen(s, events, r, k - 1);
      var t := StateAt(s, events, k - 1);
      assert r in t.db.runs && t.db.runs[r] == s.db.runs[r];
      StaysOrderly(s, events, k - 1);
      StateAfter(s, events, k - 1);
      hide SameRun, Terminal;
      NextOpensNothing(t, events[k - 1], r);
      NextSparesIff(t, events[k - 1], r);
      SameRunComposes(s.db, t.db, StateAt(s, events, k).db, r);
    }
  }

  // ----- two failing traces -----

  /** One run with one case. */
  function OneRun(run: TestRun, row: TestRunCase): RunDb {
    RunDb(map[0 := run], map[1 := row], {}, [], {}, 2, [])
  }

  function PlannedRun(): TestRun {
    TestRun(0, "", 0, PLANNED, None, None, Counters(1, 0, 0, 0, 0))
  }

  function PendingCase(): TestRunCase {
    TestRunCase(1, 0, Snapshot(0, "", ""), 0, PENDING, None, None, None)
  }

  /** One run is started and aborted; both read it as planned, and the abort is written
      first. */
  function StartAfterAbort(abortedAt: int, startedAt: int): seq<Event> {
    [ReadsStatus(0, 0, IN_PROGRESS), ReadsStatus(1, 0, ABORTED), WritesStatus(1, abortedAt), WritesStatus(0, startedAt)]
  }

  lemma OneCaseIsCounted(run: TestRun, row: TestRunCase)
    requires run.id == 0 && row.id == 1 && row.testRunId == 0 && row.result == PASS
    requires run.counters == Counters(1, 1, 0, 0, 0)
    ensures CountersExact(map[1 := row], run)
  {
    assert CasesOf(map[1 := row], 0) == {1} && CasesWith(map[1 := row], 0, PASS) == {1};
    forall x | x != PASS ensures CasesWith(map[1 := row], 0, x) == {} {}
  }

  lemma PendingCaseIsCounted()
    ensures CountersExact(map[1 := PendingCase()], PlannedRun())
  {
    assert CasesOf(map[1 := PendingCase()], 0) == {1};
    forall x | x != PENDING ensures CasesWith(map[1 := PendingCase()], 0, x) == {} {}
  }

  function StaleFloor(): Floor {
    Floor(OneRun(PlannedRun(), PendingCase()), map[])
  }

  lemma StaleFloorIsCoherent()
    ensures Coherent(StaleFloor().db) && OpenFits(StaleFloor())
  {
    PendingCaseIsCounted();
    hide CountersExact;
    assert RunSound(StaleFloor().db, 0) && CaseSound(StaleFloor().db, 1);
  }

  lemma BothChangesAreRead(abortedAt: int, startedAt: int)
    ensures StateAt(StaleFloor(), StartAfterAbort(abortedAt, startedAt), 2) ==
            StaleFloor().(open := map[0 := Moving(PlannedRun(), IN_PROGRESS), 1 := Moving(PlannedRun(), ABORTED)])
  {
    var s, events := StaleFloor(), StartAfterAbort(abortedAt, startedAt);
    StateAtStart(s, events);
    StateAfter(s, events, 0);
    StateAfter(s, events, 1);
    hide StateAt, Step, CaseWritten, StatusWritten;
    assert Next(s, events[0]) == s.(open := map[0 := Moving(PlannedRun(), IN_PROGRESS)]);
  }

  /** A status change on a table of one run. */
  lemma OneRunMoves(s: Floor, call: CallId, run: TestRun, read: TestRun, target: RunStatus, now: int)
    requires read.id == 0 && s.db.runs == map[0 := run] && call in s.open && s.open[call] == Moving(read, target)
    ensures var s' := Next(s, WritesStatus(call, now));
            && s'.db == StatusWritten(s.db, read, target, now) && s'.open == s.open - {call}
            && s'.db.runs == map[0 := Moved(run, read, target, now)] && s'.db.cases == s.db.cases
  {
    hide Step, CaseWritten;
  }

  lemma StaleStartIsLate(done: Floor, aborted: TestRun, startedAt: int)
    requires aborted.status == ABORTED && aborted.completedAt.Some? && done.db.runs == map[0 := aborted]
    requires done.open == map[0 := Moving(PlannedRun(), IN_PROGRESS)]
    ensures !InTime(done, WritesStatus(0, startedAt)) && !Spares(done, WritesStatus(0, startedAt), 0)
    ensures !RunEvolves(aborted, Moved(aborted, PlannedRun(), IN_PROGRESS, startedAt))
  {
    assert done.open[0] == Moving(PlannedRun(), IN_PROGRESS) && done.db.runs[0] == aborted;
    assert Moves(done, WritesStatus(0, startedAt));
  }

  function AbortedRun(at: int): TestRun {
    PlannedRun().(status := ABORTED, completedAt := Some(at))
  }

  lemma AbortIsKept(at: int)
    ensures Coherent(StatusWritten(StaleFloor().db, PlannedRun(), ABORTED, at))
    ensures Moved(PlannedRun(), PlannedRun(), ABORTED, at) == AbortedRun(at)
  {
    hide Coherent;
    StaleFloorIsCoherent();
    ReadFits(StaleFloor().db, 0, ABORTED);
    MoveKeptIff(StaleFloor().db, PlannedRun(), ABORTED, at);
  }

  /** The tables after the late start take recordings. */
  lemma ReopenedRecords(db: RunDb, aborted: TestRun, startedAt: int)
    requires db.runs == map[0 := Moved(aborted, PlannedRun(), IN_PROGRESS, startedAt)]
    requires db.cases == map[1 := PendingCase()]
    ensures RecordProblem(db, 0, 1).None?
    ensures db.runs[0].status == IN_PROGRESS && db.runs[0].completedAt == aborted.completedAt
  {
    assert db.cases[1] == PendingCase();
  }

  /** The run is finished after the third event although no recording is open; the fourth
      makes it run again with its completion date still set, and results can be recorded. */
  lemma StaleStartReopensRun(abortedAt: int, startedAt: int)
    ensures var s, events := StaleFloor(), StartAfterAbort(abortedAt, startedAt);
            && Coherent(s.db) && OpenFits(s)
            && var done, reopened := StateAt(s, events, 3), StateAt(s, events, 4).db;
               && Coherent(done.db) && 0 in done.db.runs && done.db.runs[0].status == ABORTED
               && !InTime(done, events[3]) && !Spares(done, events[3], 0)
               && 0 in reopened.runs && reopened.runs[0].status == IN_PROGRESS
               && reopened.runs[0].completedAt == Some(abortedAt)
               && !RunEvolves(done.db.runs[0], reopened.runs[0]) && RecordProblem(reopened, 0, 1).None?
  {
    var s, events := StaleFloor(), StartAfterAbort(abortedAt, startedAt);
    hide StateAt, Next, Coherent, OpenFits, Evolves, InTime, Spares, StatusWritten, RunEvolves, Moved;
    StaleFloorIsCoherent();
    BothChangesAreRead(abortedAt, startedAt);
    StateAfter(s, events, 2);
    StateAfter(s, events, 3);
    AbortIsKept(abortedAt);
    OneRunMoves(StateAt(s, events, 2), 1, PlannedRun(), PlannedRun(), ABORTED, abortedAt);
    OneRunMoves(StateAt(s, events, 3), 0, AbortedRun(abortedAt), PlannedRun(), IN_PROGRESS, startedAt);
    StaleStartIsLate(StateAt(s, events, 3), AbortedRun(abortedAt), startedAt);
    ReopenedRecords(StateAt(s, events, 4).db, AbortedRun(abortedAt), startedAt);
  }

  function RunningRun(startedAt: int): TestRun {
    TestRun(0, "", 0, IN_PROGRESS, Some(startedAt), None, Counters(1, 1, 0, 0, 0))
  }

  function PassedCase(recorder: Id, at: int): TestRunCase {
    PendingCase().(result := PASS, recordedById := Some(recorder), recordedAt := Some(at))
  }

  /** A second recorder confirms a result while the run is completed. */
  function ConfirmAfterCompletion(user: Id, at: int): seq<Event> {
    [ReadsRun(0, Recording(0, 1, user, PASS, None)), ReadsCase(0), Whole(StatusOp(0, COMPLETED, at)), WritesCase(0, at)]
  }

  function LateStart(first: Id, at: int): Floor {
    Floor(OneRun(RunningRun(at), PassedCase(first, at)), map[])
  }

  lemma LateStartIsCoherent(first: Id, at: int)
    ensures Coherent(LateStart(first, at).db) && OpenFits(LateStart(first, at))
  {
    var s := LateStart(first, at);
    OneCaseIsCounted(RunningRun(at), PassedCase(first, at));
    hide CountersExact;
    assert RunSound(s.db, 0) && CaseSound(s.db, 1);
  }

  lemma LateReads(first: Id, second: Id, at: int)
    ensures var s := LateStart(first, at);
            StateAt(s, ConfirmAfterCompletion(second, at), 2) ==
            s.(open := map[0 := CaseSeen(Recording(0, 1, second, PASS, None), PASS)])
  {
    var s, events := LateStart(first, at), ConfirmAfterCompletion(second, at);
    StateAtStart(s, events);
    StateAfter(s, events, 0);
    StateAfter(s, events, 1);
    hide StateAt, Step, CaseWritten, StatusWritten;
    assert Next(s, events[0]) == s.(open := map[0 := RunSeen(Recording(0, 1, second, PASS, None))]);
  }

  lemma CompletionMeanwhile(s: Floor, at: int)
    requires s.db.runs == map[0 := RunningRun(at)]
    ensures var done := Next(s, Whole(StatusOp(0, COMPLETED, at)));
            && done.db.runs == map[0 := RunningRun(at).(status := COMPLETED, completedAt := Some(at))]
            && done.db.cases == s.db.cases && done.open == s.open
  {
    hide CaseWritten, StatusWritten;
  }

  lemma Confirmed(run: TestRun, row: TestRunCase, second: Id, at: int)
    requires row.result == PASS && row.recordedById != Some(second)
    ensures var what := Recording(0, 1, second, PASS, None);
            && Counted(run, what, PASS) == run
            && CaseRow(row, what, at) == row.(recordedById := Some(second), recordedAt := Some(at)) != row
  {
    assert run.counters.(total := run.counters.total) == run.counters;
  }

  lemma LateWrite(done: Floor, run: TestRun, row: TestRunCase, second: Id, at: int)
    requires row.result == PASS && row.recordedById != Some(second) && Terminal(run.status)
    requires done.db.runs == map[0 := run] && done.db.cases == map[1 := row]
    requires done.open == map[0 := CaseSeen(Recording(0, 1, second, PASS, None), PASS)]
    ensures var late := Next(done, WritesCase(0, at)).db;
            && late.runs == map[0 := run]
            && late.cases == map[1 := row.(recordedById := Some(second), recordedAt := Some(at))]
    ensures !Spares(done, WritesCase(0, at), 0) && !InTime(done, WritesCase(0, at))
  {
    var what := Recording(0, 1, second, PASS, None);
    Confirmed(run, row, second, at);
    hide Step, StatusWritten, Moved, CaseRow, Counted, Terminal;
    assert done.db.cases[1] == row && done.db.runs[0] == run && done.open[0] == CaseSeen(what, PASS);
    assert Records(done, WritesCase(0, at));
  }

  /** Results and counters of the finished run are unchanged, yet its case now names another
      recorder. */
  lemma LateConfirmationChangesRecorder(first: Id, second: Id, at: int)
    requires first != second
    ensures var s, events := LateStart(first, at), ConfirmAfterCompletion(second, at);
            && Coherent(s.db) && OpenFits(s)
            && var done, late := StateAt(s, events, 3), StateAt(s, events, 4).db;
               && 0 in done.db.runs && done.db.runs[0].status == COMPLETED && late.runs == done.db.runs
               && done.db.cases == map[1 := PassedCase(first, at)] && late.cases == map[1 := PassedCase(second, at)]
               && !Spares(done, events[3], 0) && !InTime(done, events[3])
  {
    var s, events := LateStart(first, at), ConfirmAfterCompletion(second, at);
    var what := Recording(0, 1, second, PASS, None);
    LateStartIsCoherent(first, at);
    LateReads(first, second, at);
    StateAfter(s, events, 2);
    StateAfter(s, events, 3);
    assert s.db.runs == map[0 := RunningRun(at)];
    hide StateAt, Next, Coherent, OpenFits, InTime, Spares;
    CompletionMeanwhile(StateAt(s, events, 2), at);
    LateWrite(StateAt(s, events, 3), RunningRun(at).(status := COMPLETED, completedAt := Some(at)),
              PassedCase(first, at), second, at);
  }

  // ----- calls that nothing interrupts -----

  /** A recording whose three steps follow each other is the call that takes effect at once,
      refused or not. */
  lemma UninterruptedRecording(s: Floor, call: CallId, what: Recording, now: int)
    requires call !in s.open
    ensures StateAt(s, [ReadsRun(call, what), ReadsCase(call), WritesCase(call, now)], 3).db ==
            Step(s.db, RecordOp(what.runId, what.caseId, what.userId, what.result, what.comment, now))
  {
    var events := [ReadsRun(call, what), ReadsCase(call), WritesCase(call, now)];
    StateAtStart(s, events);
    StateAfter(s, events, 0);
    StateAfter(s, events, 1);
    StateAfter(s, events, 2);
    hide StateAt, Shift;
  }

  /** So is a status change whose two steps follow each other. */
  lemma UninterruptedStatusChange(s: Floor, call: CallId, runId: Id, target: RunStatus, now: int)
    requires call !in s.open && Structured(s.db)
    ensures StateAt(s, [ReadsStatus(call, runId, target), WritesStatus(call, now)], 2).db ==
            Step(s.db, StatusOp(runId, target, now))
  {
    var events := [ReadsStatus(call, runId, target), WritesStatus(call, now)];
    StateAtStart(s, events);
    StateAfter(s, events, 0);
    StateAfter(s, events, 1);
    hide StateAt;
  }
}
