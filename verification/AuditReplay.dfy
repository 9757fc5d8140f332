/** The audit log replayed in order: together with the run each case belongs to, which no
    entry names, it rebuilds every current result, every status and every counter. */
module AuditReplay {
  import opened Domain
  import opened RunCounters
  import opened RunsService

  /** What has been rebuilt so far; a case or run not mentioned is PENDING or PLANNED. */
  datatype Rebuilt = Rebuilt(results: map<Id, RunCaseResult>, statuses: map<Id, RunStatus>, tallies: map<Id, Counters>)

  const NOTHING_YET: Rebuilt := Rebuilt(map[], map[], map[])

  function ResultAt(b: Rebuilt, c: Id): RunCaseResult {
    if c in b.results then b.results[c] else PENDING
  }

  function StatusAt(b: Rebuilt, r: Id): RunStatus {
    if r in b.statuses then b.statuses[r] else PLANNED
  }

  function TallyAt(b: Rebuilt, r: Id): Counters {
    if r in b.tallies then b.tallies[r] else Counters(0, 0, 0, 0, 0)
  }

  /** One entry; home tells which run a case belongs to.  A creation entry sets up the run's
      counters with its number of cases.  An entry whose "before" is not the rebuilt value
      does not fit, nor does a second creation of a run. */
  function Apply(b: Rebuilt, e: RunAudit, home: map<Id, Id>): Option<Rebuilt> {
    match e
    case ResultRecorded(c, before, after) =>
      if c !in home || ResultAt(b, c) != before then None
      else Some(b.(results := b.results[c := after],
                   tallies := b.tallies[home[c] := Shift(TallyAt(b, home[c]), before, after)]))
    case StatusChanged(r, from, to) =>
      if StatusAt(b, r) != from then None else Some(b.(statuses := b.statuses[r := to]))
    case RunCreated(r, caseCount) =>
      if r in b.tallies then None else Some(b.(tallies := b.tallies[r := Counters(caseCount, 0, 0, 0, 0)]))
    case AssigneesChanged(_, _) => Some(b)
  }

  function Replay(audit: seq<RunAudit>, home: map<Id, Id>): Option<Rebuilt> {
    if audit == [] then Some(NOTHING_YET)
    else
      var sofar := Replay(audit[..|audit| - 1], home);
      if sofar.None? then None else Apply(sofar.value, audit[|audit| - 1], home)
  }

  /** The rebuilt values are those of the tables. */
  ghost predicate Matches(b: Rebuilt, db: RunDb) {
    && b.results.Keys <= db.cases.Keys && b.statuses.Keys <= db.runs.Keys && b.tallies.Keys <= db.runs.Keys
    && (forall c :: c in db.cases ==> ResultAt(b, c) == db.cases[c].result)
    && (forall r :: r in db.runs ==>
          StatusAt(b, r) == db.runs[r].status && TallyAt(b, r) == db.runs[r].counters)
  }

  ghost predicate HomeFits(home: map<Id, Id>, db: RunDb) {
    forall c :: c in db.cases ==> c in home && home[c] == db.cases[c].testRunId
  }

  ghost predicate Replays(db: RunDb, home: map<Id, Id>) {
    Replay(db.audit, home).Some? && Matches(Replay(db.audit, home).value, db)
  }

  lemma ReplayNext(audit: seq<RunAudit>, e: RunAudit, home: map<Id, Id>)
    requires Replay(audit, home).Some?
    ensures Replay(audit + [e], home) == Apply(Replay(audit, home).value, e, home)
  {
    assert (audit + [e])[..|audit|] == audit;
  }

  lemma MatchesAfterCreate(b: Rebuilt, db: RunDb, run: TestRun, rows: map<Id, TestRunCase>, db': RunDb)
    requires Matches(b, db) && run.id !in db.runs && run.status == PLANNED
    requires forall c :: c in rows ==> c !in db.cases && rows[c].result == PENDING
    requires db'.runs == db.runs[run.id := run] && db'.cases == db.cases + rows
    ensures Matches(b.(tallies := b.tallies[run.id := run.counters]), db') && run.id !in b.tallies
  {
    var b' := b.(tallies := b.tallies[run.id := run.counters]);
    assert b.statuses.Keys <= db.runs.Keys && b.results.Keys <= db.cases.Keys;
    forall c | c in db'.cases ensures ResultAt(b', c) == db'.cases[c].result {
      if c in db.cases { assert ResultAt(b, c) == db.cases[c].result; }
    }
    forall r | r in db'.runs
      ensures StatusAt(b', r) == db'.runs[r].status && TallyAt(b', r) == db'.runs[r].counters
    {
      if r in db.runs { assert StatusAt(b, r) == db.runs[r].status && TallyAt(b, r) == db.runs[r].counters; }
    }
  }

  lemma CreateReplays(db: RunDb, userId: Id, dto: CreateRunDto, home: map<Id, Id>)
    requires Coherent(db) && Replays(db, home)
    ensures Replays(Created(db, userId, dto).0, home)
  {
    var (db', r) := Created(db, userId, dto);
    if r.Ok? {
      var chosen := Selected(db.testCases, dto);
      IdsBelowNext(db);
      assert db'.audit == db.audit + [RunCreated(db.nextId, |chosen|)];
      assert db'.runs == db.runs[db.nextId := r.value] && db'.cases == db.cases + NewCases(db.nextId, chosen);
      assert r.value.id == db.nextId && r.value.status == PLANNED && r.value.counters == Counters(|chosen|, 0, 0, 0, 0);
      hide Selected, NewCases, Created, Coherent, Matches;
      ReplayNext(db.audit, RunCreated(db.nextId, |chosen|), home);
      NewCasesAreFirstRows(db.nextId, chosen);
      MatchesAfterCreate(Replay(db.audit, home).value, db, r.value, NewCases(db.nextId, chosen), db');
    }
  }

  lemma MatchesAfterRecord(b: Rebuilt, db: RunDb, row: TestRunCase, run: TestRun, tally: Counters, db': RunDb)
    requires Matches(b, db) && row.id in db.cases && run.id in db.runs
    requires run.status == db.runs[run.id].status && tally == run.counters
    requires db'.cases == db.cases[row.id := row] && db'.runs == db.runs[run.id := run]
    ensures Matches(Rebuilt(b.results[row.id := row.result], b.statuses, b.tallies[run.id := tally]), db')
  {
    var b' := Rebuilt(b.results[row.id := row.result], b.statuses, b.tallies[run.id := tally]);
    forall c | c in db'.cases ensures ResultAt(b', c) == db'.cases[c].result {
      assert ResultAt(b, c) == db.cases[c].result;
    }
    forall r | r in db'.runs
      ensures StatusAt(b', r) == db'.runs[r].status && TallyAt(b', r) == db'.runs[r].counters
    {
      assert StatusAt(b, r) == db.runs[r].status && TallyAt(b, r) == db.runs[r].counters;
    }
  }

  lemma RecordReplays(db: RunDb, runId: Id, caseId: Id, userId: Id, result: RunCaseResult, comment: Option<string>,
                      now: int, home: map<Id, Id>)
    requires Coherent(db) && Replays(db, home) && HomeFits(home, db)
    ensures Replays(Recorded(db, runId, caseId, userId, result, comment, now).0, home)
  {
    hide Shift, Matches, Coherent, Replay;
    if RecordProblem(db, runId, caseId).None? {
      var (db', r) := Recorded(db, runId, caseId, userId, result, comment, now);
      var b, before := Replay(db.audit, home).value, db.cases[caseId].result;
      OwnIds(db, runId, caseId);
      MatchedRow(b, db, caseId);
      ReplayNext(db.audit, ResultRecorded(caseId, before, result), home);
      MatchesAfterRecord(b, db, r.value.updatedCase, r.value.updatedRun, Shift(TallyAt(b, runId), before, result), db');
    }
  }

  lemma OwnIds(db: RunDb, runId: Id, caseId: Id)
    requires Coherent(db) && runId in db.runs && caseId in db.cases
    ensures db.runs[runId].id == runId && db.cases[caseId].id == caseId && db.cases[caseId].testRunId in db.runs
  {
    assert RunSound(db, runId) && CaseSound(db, caseId);
  }

  lemma MatchedRow(b: Rebuilt, db: RunDb, c: Id)
    requires Matches(b, db) && c in db.cases && db.cases[c].testRunId in db.runs
    ensures ResultAt(b, c) == db.cases[c].result
    ensures TallyAt(b, db.cases[c].testRunId) == db.runs[db.cases[c].testRunId].counters
  {
  }

  lemma MatchesAfterStatus(b: Rebuilt, db: RunDb, r: Id, run: TestRun, db': RunDb)
    requires Matches(b, db) && r in db.runs && run.counters == db.runs[r].counters
    requires db'.cases == db.cases && db'.runs == db.runs[r := run]
    ensures StatusAt(b, r) == db.runs[r].status
    ensures Matches(b.(statuses := b.statuses[r := run.status]), db')
  {
  }

  lemma StatusReplays(db: RunDb, runId: Id, target: RunStatus, now: int, home: map<Id, Id>)
    requires Replays(db, home)
    ensures Replays(StatusSet(db, runId, target, now).0, home)
  {
    hide Matches, Replay;
    var (db', r) := StatusSet(db, runId, target, now);
    if r.Ok? {
      MatchesAfterStatus(Replay(db.audit, home).value, db, runId, r.value, db');
      ReplayNext(db.audit, StatusChanged(runId, db.runs[runId].status, target), home);
    }
  }

  lemma AssignReplays(db: RunDb, runId: Id, userIds: seq<Id>, home: map<Id, Id>)
    requires Replays(db, home)
    ensures Replays(AssigneesSet(db, runId, userIds).0, home)
  {
    ReplayNext(db.audit, RunAudit.AssigneesChanged(runId, userIds), home);
  }

  lemma SourcesReplay(db: RunDb, change: SourceChange, home: map<Id, Id>)
    requires Replays(db, home)
    ensures Replays(SourcesChanged(db, change), home)
  {
    hide Replay;
  }

  lemma StepReplays(db: RunDb, op: RunOp, home: map<Id, Id>)
    requires Coherent(db) && Replays(db, home) && HomeFits(home, db)
    ensures Replays(Step(db, op), home)
  {
    hide Replay, Matches, HomeFits, Coherent, Created, Recorded, StatusSet, AssigneesSet;
    match op
    case CreateOp(userId, dto) => CreateReplays(db, userId, dto, home);
    case RecordOp(runId, caseId, userId, result, comment, now) =>
      RecordReplays(db, runId, caseId, userId, result, comment, now, home);
    case StatusOp(runId, target, now) => StatusReplays(db, runId, target, now, home);
    case AssignOp(runId, userIds) => AssignReplays(db, runId, userIds, home);
    case SourceOp(change) => SourcesReplay(db, change, home);
  }

  lemma {:induction false} RunReplays(db: RunDb, ops: seq<RunOp>, home: map<Id, Id>)
    requires Coherent(db) && Replays(db, home) && HomeFits(home, Run(db, ops))
    ensures Replays(Run(db, ops), home)
    decreases |ops|
  {
    RunsEvolve(db, ops);
    if ops != [] {
      StepReplays(db, ops[0], home);
      StepKeepsCoherent(db, ops[0]);
      RunReplays(Step(db, ops[0]), ops[1..], home);
    }
  }

  ghost function HomeOf(db: RunDb): map<Id, Id> {
    map c | c in db.cases :: db.cases[c].testRunId
  }

  /** From empty run tables, whatever calls follow, the log and the run of each case rebuild
      the results, the statuses and all counters of the current state, totals included, and
      every entry fits the ones before it. */
  lemma AuditRebuildsState(db: RunDb, ops: seq<RunOp>)
    requires db.runs == map[] && db.cases == map[] && db.audit == []
    ensures var after := Run(db, ops);
            var b := Replay(after.audit, HomeOf(after));
            && b.Some?
            && (forall c :: c in after.cases ==> ResultAt(b.value, c) == after.cases[c].result)
            && (forall r :: r in after.runs ==>
                  StatusAt(b.value, r) == after.runs[r].status && TallyAt(b.value, r) == after.runs[r].counters)
  {
    RunReplays(db, ops, HomeOf(Run(db, ops)));
  }

  lemma {:induction false} ReplayPrefix(audit: seq<RunAudit>, home: map<Id, Id>, k: nat)
    requires Replay(audit, home).Some? && k <= |audit|
    ensures Replay(audit[..k], home).Some?
    decreases |audit|
  {
    if k < |audit| {
      assert audit[..|audit| - 1][..k] == audit[..k];
      ReplayPrefix(audit[..|audit| - 1], home, k);
    } else {
      assert audit[..k] == audit;
    }
  }

  // ----- consecutive entries about the same case or run -----

  datatype Target = OfCase(caseId: Id) | OfRun(runId: Id) | Nothing

  datatype Value = ResultValue(result: RunCaseResult) | StatusValue(status: RunStatus) | NoValue

  /** Whose value an entry changes, from what and to what. */
  function TargetOf(e: RunAudit): Target {
    match e
    case ResultRecorded(c, _, _) => OfCase(c)
    case StatusChanged(r, _, _) => OfRun(r)
    case _ => Nothing
  }

  function ValueBefore(e: RunAudit): Value {
    match e
    case ResultRecorded(_, before, _) => ResultValue(before)
    case StatusChanged(_, from, _) => StatusValue(from)
    case _ => NoValue
  }

  function ValueAfter(e: RunAudit): Value {
    match e
    case ResultRecorded(_, _, after) => ResultValue(after)
    case StatusChanged(_, _, to) => StatusValue(to)
    case _ => NoValue
  }

  function ValueAt(b: Rebuilt, t: Target): Value {
    match t
    case OfCase(c) => ResultValue(ResultAt(b, c))
    case OfRun(r) => StatusValue(StatusAt(b, r))
    case Nothing => NoValue
  }

  lemma ApplyHandsOver(b: Rebuilt, e: RunAudit, home: map<Id, Id>, t: Target)
    requires Apply(b, e, home).Some?
    ensures ValueAt(b, TargetOf(e)) == ValueBefore(e)
    ensures ValueAt(Apply(b, e, home).value, t) == if t == TargetOf(e) then ValueAfter(e) else ValueAt(b, t)
  {
    hide Shift, TallyAt;
    match e { case ResultRecorded(_, _, _) => case StatusChanged(_, _, _) => case _ => }
  }

  lemma {:induction false} ValueHolds(audit: seq<RunAudit>, home: map<Id, Id>, i: nat, k: nat)
    requires Replay(audit, home).Some? && i < k <= |audit|
    requires forall j :: i < j < k ==> TargetOf(audit[j]) != TargetOf(audit[i])
    ensures Replay(audit[..k], home).Some?
            && ValueAt(Replay(audit[..k], home).value, TargetOf(audit[i])) == ValueAfter(audit[i])
  {
    ReplayPrefix(audit, home, k);
    ReplayPrefix(audit, home, k - 1);
    assert audit[..k][..k - 1] == audit[..k - 1];
    ApplyHandsOver(Replay(audit[..k - 1], home).value, audit[k - 1], home, TargetOf(audit[i]));
    if i < k - 1 {
      ValueHolds(audit, home, i, k - 1);
    }
  }

  /** In a log that replays, consecutive entries about one case's result, or about one run's
      status, hand over: the later one's "before" is the earlier one's "after". */
  lemma ReplayedEntriesHandOver(audit: seq<RunAudit>, home: map<Id, Id>, i: nat, j: nat)
    requires Replay(audit, home).Some? && i < j < |audit| && TargetOf(audit[j]) == TargetOf(audit[i])
    requires forall k :: i < k < j ==> TargetOf(audit[k]) != TargetOf(audit[i])
    ensures ValueBefore(audit[j]) == ValueAfter(audit[i])
  {
    ValueHolds(audit, home, i, j);
    ReplayPrefix(audit, home, j + 1);
    assert audit[..j + 1][..j] == audit[..j];
    ApplyHandsOver(Replay(audit[..j], home).value, audit[j], home, TargetOf(audit[j]));
  }

  /** From empty run tables, whatever calls follow: consecutive entries of the log about one
      case's result, or about one run's status, hand over, the later one's "before" being
      the earlier one's "after". */
  lemma EntriesHandOver(db: RunDb, ops: seq<RunOp>, i: nat, j: nat)
    requires db.runs == map[] && db.cases == map[] && db.audit == []
    requires var audit := Run(db, ops).audit;
             && i < j < |audit| && TargetOf(audit[j]) == TargetOf(audit[i])
             && forall k :: i < k < j ==> TargetOf(audit[k]) != TargetOf(audit[i])
    ensures ValueBefore(Run(db, ops).audit[j]) == ValueAfter(Run(db, ops).audit[i])
  {
    AuditRebuildsState(db, ops);
    ReplayedEntriesHandOver(Run(db, ops).audit, HomeOf(Run(db, ops)), i, j);
  }
}
