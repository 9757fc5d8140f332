/** A browser's copy of one run: fetched once, then patched by the events that follow each
    commit.  Patching is enough to stay equal to what a new fetch would bring. */
module RunReplica {
  import opened Domain
  import opened RunCounters
  import opened RunsService

  datatype RunCaseItem = RunCaseItem(id: Id, position: nat, snapshot: Snapshot, result: RunCaseResult,
                                     comment: Option<string>, recordedBy: Option<Id>, recordedAt: Option<int>)

  datatype RunSummary = RunSummary(id: Id, status: RunStatus, progress: RunProgress, assignees: set<Id>)

  datatype CasePatch = CasePatch(id: Id, result: RunCaseResult, comment: Option<string>, recordedBy: Option<Id>,
                                 recordedAt: Option<int>)

  /** The messages of a run's room. */
  datatype Event =
    | CaseRecorded(runCaseId: Id, result: RunCaseResult, previousResult: RunCaseResult, comment: Option<string>,
                   recordedBy: Id, recordedAt: Option<int>)
    | ProgressUpdated(progress: RunProgress)
    | AssigneesChanged(userIds: set<Id>)
    | StatusChanged(status: RunStatus)
    | PresenceUpdated(participants: set<Id>)

  /** The two cache entries of a run; None is an entry that was never fetched. */
  datatype Cache = Cache(items: Option<seq<RunCaseItem>>, detail: Option<RunSummary>)

  // ----- patches -----

  function PatchItem(item: RunCaseItem, p: CasePatch): RunCaseItem {
    if item.id == p.id
    then item.(result := p.result, comment := p.comment, recordedBy := p.recordedBy, recordedAt := p.recordedAt)
    else item
  }

  function PatchItems(items: seq<RunCaseItem>, p: CasePatch): (r: seq<RunCaseItem>)
    ensures |r| == |items| && forall i :: 0 <= i < |items| ==> r[i] == PatchItem(items[i], p)
  {
    seq(|items|, i requires 0 <= i < |items| => PatchItem(items[i], p))
  }

  class QueryCache {
    var items: Option<seq<RunCaseItem>>
    var detail: Option<RunSummary>

    ghost function Value(): Cache
      reads this
    {
      Cache(items, detail)
    }

    method PatchRunCaseResult(p: CasePatch)
      modifies this`items
      ensures old(items).None? ==> items.None?
      ensures old(items).Some? ==> items == Some(PatchItems(old(items).value, p))
    {
      if items.Some? { items := Some(PatchItems(items.value, p)); }
    }

    method PatchRunCounters(progress: RunProgress)
      modifies this`detail
      ensures detail == if old(detail).Some? then Some(old(detail).value.(progress := progress)) else None
    {
      if detail.Some? { detail := Some(detail.value.(progress := progress)); }
    }

    method PatchRunAssignees(assignees: set<Id>)
      modifies this`detail
      ensures detail == if old(detail).Some? then Some(old(detail).value.(assignees := assignees)) else None
    {
      if detail.Some? { detail := Some(detail.value.(assignees := assignees)); }
    }

    /** The socket handlers of the run screen; a status message is left to other code, and
        the participants are state of the screen, not of the cache. */
    method OnEvent(e: Event)
      modifies this
      ensures Value() == Patched(old(Value()), e)
    {
      match e
      case CaseRecorded(c, result, _, comment, userId, at) =>
        PatchRunCaseResult(CasePatch(c, result, comment, Some(userId), at));
      case ProgressUpdated(progress) => PatchRunCounters(progress);
      case AssigneesChanged(userIds) => PatchRunAssignees(userIds);
      case StatusChanged(_) =>
      case PresenceUpdated(_) =>
    }
  }

  function Patched(cache: Cache, e: Event): Cache {
    match e
    case CaseRecorded(c, result, _, comment, userId, at) =>
      if cache.items.None? then cache
      else cache.(items := Some(PatchItems(cache.items.value, CasePatch(c, result, comment, Some(userId), at))))
    case ProgressUpdated(progress) =>
      if cache.detail.None? then cache else cache.(detail := Some(cache.detail.value.(progress := progress)))
    case AssigneesChanged(userIds) =>
      if cache.detail.None? then cache else cache.(detail := Some(cache.detail.value.(assignees := userIds)))
    case StatusChanged(_) => cache
    case PresenceUpdated(_) => cache
  }

  function PatchedAll(cache: Cache, events: seq<Event>): Cache
    decreases |events|
  {
    if events == [] then cache else PatchedAll(Patched(cache, events[0]), events[1..])
  }

  // ----- events and fetches -----

  /** What the service sends to the run's room after a call has committed. */
  function EventsOf(db: RunDb, op: RunOp, runId: Id): seq<Event> {
    match op
    case RecordOp(r, c, userId, result, comment, now) =>
      var reply := Recorded(db, r, c, userId, result, comment, now).1;
      if r != runId || reply.Err? then []
      else
        var row := reply.value.updatedCase;
        [CaseRecorded(c, row.result, reply.value.previousResult, row.comment, userId, row.recordedAt),
         ProgressUpdated(ComputeCounters(reply.value.updatedRun.counters))]
    case StatusOp(r, target, now) =>
      var reply := StatusSet(db, r, target, now).1;
      if r != runId || reply.Err? then [] else [Event.StatusChanged(reply.value.status)]
    case AssignOp(r, userIds) =>
      var reply := AssigneesSet(db, r, userIds).1;
      if r != runId || reply.Err? then [] else [Event.AssigneesChanged(reply.value)]
    case CreateOp(_, _) => []
    case SourceOp(_) => []
  }

  function EventsOfRun(db: RunDb, ops: seq<RunOp>, runId: Id): seq<Event>
    decreases |ops|
  {
    if ops == [] then [] else EventsOf(db, ops[0], runId) + EventsOfRun(Step(db, ops[0]), ops[1..], runId)
  }

  ghost function AssignedTo(db: RunDb, runId: Id): set<Id> {
    set a | a in db.assignees && a.0 == runId :: a.1
  }

  ghost predicate ItemAgrees(item: RunCaseItem, row: TestRunCase) {
    && item.position == row.position && item.snapshot == row.snapshot
    && item.result == row.result && item.comment == row.comment && item.recordedAt == row.recordedAt
    && (row.result != PENDING ==> item.recordedBy == row.recordedById)
  }

  /** items lists the run's cases by position, each once. */
  ghost predicate ItemsAgree(items: seq<RunCaseItem>, db: RunDb, runId: Id) {
    && (forall i, j :: 0 <= i < j < |items| ==> items[i].id != items[j].id && items[i].position <= items[j].position)
    && (forall c :: c in CasesOf(db.cases, runId) <==> exists i :: 0 <= i < |items| && items[i].id == c)
    && (forall i :: 0 <= i < |items| ==> items[i].id in db.cases && ItemAgrees(items[i], db.cases[items[i].id]))
  }

  ghost predicate DetailAgrees(detail: RunSummary, db: RunDb, runId: Id) {
    && runId in db.runs && detail.id == runId
    && detail.progress == ComputeCounters(db.runs[runId].counters)
    && detail.assignees == AssignedTo(db, runId)
  }

  ghost predicate Agrees(cache: Cache, db: RunDb, runId: Id) {
    && (cache.items.Some? ==> ItemsAgree(cache.items.value, db, runId))
    && (cache.detail.Some? ==> DetailAgrees(cache.detail.value, db, runId))
  }

  /** The items as a fetch at this moment brings them. */
  ghost predicate ItemsFetched(items: seq<RunCaseItem>, db: RunDb, runId: Id) {
    && ItemsAgree(items, db, runId)
    && forall i :: 0 <= i < |items| ==> items[i].recordedBy == db.cases[items[i].id].recordedById
  }

  /** The detail as a fetch at this moment brings it. */
  ghost predicate DetailFetched(detail: RunSummary, db: RunDb, runId: Id) {
    DetailAgrees(detail, db, runId) && detail.status == db.runs[runId].status
  }

  // ----- convergence -----

  lemma PatchedTwo(cache: Cache, a: Event, b: Event)
    ensures PatchedAll(cache, [a, b]) == Patched(Patched(cache, a), b)
  {
    assert [a, b][1..] == [b];
    assert PatchedAll(Patched(cache, a), [b]) == PatchedAll(Patched(Patched(cache, a), b), [b][1..]);
    assert [b][1..] == [];
  }

  /** The items are those of b's run; each one agrees with its row in a or in b. */
  ghost predicate ItemsBetween(items: seq<RunCaseItem>, a: RunDb, b: RunDb, runId: Id) {
    && (forall i, j :: 0 <= i < j < |items| ==> items[i].id != items[j].id && items[i].position <= items[j].position)
    && (forall c :: c in CasesOf(b.cases, runId) <==> exists i :: 0 <= i < |items| && items[i].id == c)
    && (forall i :: 0 <= i < |items| ==> items[i].id in b.cases && ItemBetween(items[i], a, b))
  }

  ghost predicate ItemBetween(item: RunCaseItem, a: RunDb, b: RunDb)
    requires item.id in b.cases
  {
    ItemAgrees(item, b.cases[item.id]) || (item.id in a.cases && ItemAgrees(item, a.cases[item.id]))
  }

  ghost predicate DetailBetween(detail: RunSummary, a: RunDb, b: RunDb, runId: Id)
    requires runId in a.runs
  {
    && runId in b.runs && detail.id == runId
    && (detail.progress == ComputeCounters(a.runs[runId].counters)
        || detail.progress == ComputeCounters(b.runs[runId].counters))
    && (detail.assignees == AssignedTo(a, runId) || detail.assignees == AssignedTo(b, runId))
  }

  /** A copy fetched at b that has been patched by the events up to the earlier state a:
      every part of it is as in a or as in b. */
  ghost predicate Between(cache: Cache, a: RunDb, b: RunDb, runId: Id)
    requires runId in a.runs
  {
    && (cache.items.Some? ==> ItemsBetween(cache.items.value, a, b, runId))
    && (cache.detail.Some? ==> DetailBetween(cache.detail.value, a, b, runId))
  }

  lemma BetweenOneState(cache: Cache, db: RunDb, runId: Id)
    requires runId in db.runs
    ensures Between(cache, db, db, runId) <==> Agrees(cache, db, runId)
  {
    hide ComputeCounters;
  }

  lemma FetchIsBetween(cache: Cache, a: RunDb, b: RunDb, runId: Id)
    requires runId in a.runs && runId in b.runs && Agrees(cache, b, runId)
    ensures Between(cache, a, b, runId)
  {
    hide ComputeCounters;
  }

  /** An agreeing copy is between its state and any later one. */
  lemma AgreementIsBetween(cache: Cache, a: RunDb, b: RunDb, runId: Id)
    requires runId in a.runs && Evolves(a, b) && CasesOf(b.cases, runId) == CasesOf(a.cases, runId)
    requires Agrees(cache, a, runId)
    ensures Between(cache, a, b, runId)
  {
    hide ComputeCounters;
  }

  /** Rows that a step leaves alone need no patch. */
  lemma UntouchedBetween(cache: Cache, a: RunDb, a': RunDb, b: RunDb, runId: Id)
    requires runId in a.runs && Between(cache, a, b, runId)
    requires forall c :: c in a.cases && c in CasesOf(b.cases, runId) ==> c in a'.cases && a'.cases[c] == a.cases[c]
    requires runId in a'.runs && a'.runs[runId].counters == a.runs[runId].counters
    requires AssignedTo(a', runId) == AssignedTo(a, runId)
    ensures Between(cache, a', b, runId)
  {
    hide ComputeCounters, ItemAgrees;
    if cache.items.Some? {
      var items := cache.items.value;
      forall i | 0 <= i < |items| ensures ItemBetween(items[i], a', b) {
        assert items[i].id in CasesOf(b.cases, runId) && ItemBetween(items[i], a, b);
      }
    }
  }

  lemma ItemsAfterPatch(items: seq<RunCaseItem>, a: RunDb, a': RunDb, b: RunDb, runId: Id, row: TestRunCase,
                        p: CasePatch)
    requires ItemsBetween(items, a, b, runId) && Evolves(a, b)
    requires p.id in a.cases && a'.cases == a.cases[p.id := row] && CaseEvolves(a.cases[p.id], row)
    requires p.result == row.result && p.comment == row.comment && p.recordedAt == row.recordedAt
    requires row.result != PENDING ==> p.recordedBy == row.recordedById
    ensures ItemsBetween(PatchItems(items, p), a', b, runId)
  {
    var items' := PatchItems(items, p);
    forall i | 0 <= i < |items| ensures items'[i].id == items[i].id && items'[i].position == items[i].position {}
    forall c ensures c in CasesOf(b.cases, runId) <==> exists i :: 0 <= i < |items'| && items'[i].id == c {
      if i :| 0 <= i < |items| && items[i].id == c { assert items'[i].id == c; }
    }
    hide CasesOf;
    forall i | 0 <= i < |items| ensures ItemBetween(items'[i], a', b) {
      assert ItemBetween(items[i], a, b);
    }
  }

  lemma RecordPatches(cache: Cache, a: RunDb, b: RunDb, op: RunOp, runId: Id)
    requires op.RecordOp? && op.runId == runId && RecordProblem(a, runId, op.caseId).None?
    requires Evolves(a, b) && Between(cache, a, b, runId)
    ensures Between(PatchedAll(cache, EventsOf(a, op, runId)), Step(a, op), b, runId)
  {
    var (a', reply) := Recorded(a, runId, op.caseId, op.userId, op.result, op.comment, op.now);
    var row, progress := reply.value.updatedCase, ComputeCounters(reply.value.updatedRun.counters);
    var e0 := CaseRecorded(op.caseId, row.result, reply.value.previousResult, row.comment, op.userId, row.recordedAt);
    assert EventsOf(a, op, runId) == [e0, ProgressUpdated(progress)];
    PatchedTwo(cache, e0, ProgressUpdated(progress));
    hide ComputeCounters, Shift, Evolves, ItemsBetween;
    if cache.items.Some? {
      ItemsAfterPatch(cache.items.value, a, a', b, runId, row,
                      CasePatch(op.caseId, row.result, row.comment, Some(op.userId), row.recordedAt));
    }
    assert AssignedTo(a', runId) == AssignedTo(a, runId);
  }

  lemma OtherRunRecorded(cache: Cache, a: RunDb, b: RunDb, op: RunOp, runId: Id)
    requires op.RecordOp? && op.runId != runId && RecordProblem(a, op.runId, op.caseId).None?
    requires runId in a.runs && Evolves(a, b) && Between(cache, a, b, runId)
    ensures Between(cache, Step(a, op), b, runId)
  {
    var a' := Step(a, op);
    assert op.caseId !in CasesOf(b.cases, runId);
    hide ComputeCounters, Evolves, Between, Shift;
    UntouchedBetween(cache, a, a', b, runId);
  }

  lemma OtherRowsAssigned(db: RunDb, db': RunDb, r: Id, userIds: seq<Id>, runId: Id)
    requires r != runId && db'.assignees == db.assignees + AssigneeRows(r, userIds)
    ensures AssignedTo(db', runId) == AssignedTo(db, runId)
  {
    assert forall a: (Id, Id) :: a.0 == runId ==> (a in db'.assignees <==> a in db.assignees);
  }

  lemma CreateIsElsewhere(cache: Cache, a: RunDb, b: RunDb, runId: Id, userId: Id, dto: CreateRunDto)
    requires Coherent(a) && runId in a.runs && Between(cache, a, b, runId)
    ensures runId in Created(a, userId, dto).0.runs && Between(cache, Created(a, userId, dto).0, b, runId)
  {
    var (a', r) := Created(a, userId, dto);
    if r.Ok? {
      var rows := NewCases(a.nextId, Selected(a.testCases, dto));
      IdsBelowNext(a);
      assert a'.cases == a.cases + rows && a'.runs == a.runs[a.nextId := r.value];
      assert a'.assignees == a.assignees + AssigneeRows(a.nextId, dto.assigneeIds);
      hide Selected, NewCases, Created, Coherent, CasesOf, AssignedTo, AssigneeRows, Between;
      NewCasesAreFirstRows(a.nextId, Selected(a.testCases, dto));
      OtherRowsAssigned(a, a', a.nextId, dto.assigneeIds, runId);
      UntouchedBetween(cache, a, a', b, runId);
    }
  }

  lemma AssignPatches(cache: Cache, a: RunDb, b: RunDb, r: Id, userIds: seq<Id>, runId: Id)
    requires runId in a.runs && Between(cache, a, b, runId)
    ensures Between(PatchedAll(cache, EventsOf(a, AssignOp(r, userIds), runId)), AssigneesSet(a, r, userIds).0,
                    b, runId)
  {
    hide ComputeCounters, ItemsBetween;
    var (a', reply) := AssigneesSet(a, r, userIds);
    var events := EventsOf(a, AssignOp(r, userIds), runId);
    assert events != [] ==> events[1..] == [];
    if reply.Ok? {
      if cache.items.Some? { SameRowsBetween(cache.items.value, a, a', b, runId); }
      if r == runId {
        forall x ensures x in AssignedTo(a', runId) <==> x in AsSet(userIds) {
          if x in AsSet(userIds) { assert (runId, x) in AssigneeRows(runId, userIds); }
        }
      } else {
        assert forall x: (Id, Id) :: x.0 == runId ==> (x in a'.assignees <==> x in a.assignees);
        assert AssignedTo(a', runId) == AssignedTo(a, runId);
      }
    }
  }

  lemma SameRowsBetween(items: seq<RunCaseItem>, a: RunDb, a': RunDb, b: RunDb, runId: Id)
    requires ItemsBetween(items, a, b, runId) && a'.cases == a.cases
    ensures ItemsBetween(items, a', b, runId)
  {
    hide ItemAgrees, CasesOf;
    forall i | 0 <= i < |items| ensures ItemBetween(items[i], a', b) { assert ItemBetween(items[i], a, b); }
  }

  lemma StatusIsNotPatched(cache: Cache, a: RunDb, b: RunDb, r: Id, target: RunStatus, now: int, runId: Id)
    requires runId in a.runs && Between(cache, a, b, runId)
    ensures Between(PatchedAll(cache, EventsOf(a, StatusOp(r, target, now), runId)), StatusSet(a, r, target, now).0,
                    b, runId)
  {
    var events := EventsOf(a, StatusOp(r, target, now), runId);
    assert events != [] ==> events[1..] == [];
    hide Between, ComputeCounters;
    assert PatchedAll(cache, events) == cache;
    var a' := StatusSet(a, r, target, now).0;
    assert AssignedTo(a', runId) == AssignedTo(a, runId);
    UntouchedBetween(cache, a, a', b, runId);
  }

  lemma SourcesAreElsewhere(cache: Cache, a: RunDb, b: RunDb, change: SourceChange, runId: Id)
    requires runId in a.runs && Between(cache, a, b, runId)
    ensures PatchedAll(cache, EventsOf(a, SourceOp(change), runId)) == cache
    ensures Between(cache, SourcesChanged(a, change), b, runId)
  {
    assert AssignedTo(SourcesChanged(a, change), runId) == AssignedTo(a, runId);
    hide Between;
    UntouchedBetween(cache, a, SourcesChanged(a, change), b, runId);
  }

  lemma StepBetween(cache: Cache, a: RunDb, b: RunDb, op: RunOp, runId: Id)
    requires Coherent(a) && Evolves(a, b) && runId in a.runs && Between(cache, a, b, runId)
    ensures runId in Step(a, op).runs && Between(PatchedAll(cache, EventsOf(a, op, runId)), Step(a, op), b, runId)
  {
    StepEvolves(a, op);
    assert runId in Step(a, op).runs;
    hide Coherent, Evolves, Between, Created, AssigneesSet, StatusSet, SourcesChanged, Recorded, PatchedAll, CasesOf;
    match op
    case CreateOp(userId, dto) => CreateIsElsewhere(cache, a, b, runId, userId, dto);
    case RecordOp(r, c, _, _, _, _) =>
      if RecordProblem(a, r, c).None? {
        if r == runId { RecordPatches(cache, a, b, op, runId); } else { OtherRunRecorded(cache, a, b, op, runId); }
      }
    case StatusOp(r, target, now) => StatusIsNotPatched(cache, a, b, r, target, now, runId);
    case AssignOp(r, userIds) => AssignPatches(cache, a, b, r, userIds, runId);
    case SourceOp(change) => SourcesAreElsewhere(cache, a, b, change, runId);
  }

  /** No step adds a case to an existing run or takes one away. */
  lemma StepKeepsCases(db: RunDb, op: RunOp, runId: Id)
    requires Coherent(db) && runId in db.runs
    ensures CasesOf(Step(db, op).cases, runId) == CasesOf(db.cases, runId)
  {
    if op.CreateOp? && Created(db, op.userId, op.create).1.Ok? {
      var rows := NewCases(db.nextId, Selected(db.testCases, op.create));
      IdsBelowNext(db);
      assert Step(db, op).cases == db.cases + rows;
      hide Selected, NewCases, Created, Coherent, CasesOf;
      NewCasesAreFirstRows(db.nextId, Selected(db.testCases, op.create));
      OtherRunsCases(db.cases, rows, runId);
    }
  }

  lemma {:induction false} RunKeepsCases(db: RunDb, ops: seq<RunOp>, runId: Id)
    requires Coherent(db) && runId in db.runs
    ensures CasesOf(Run(db, ops).cases, runId) == CasesOf(db.cases, runId)
    decreases |ops|
  {
    if ops != [] {
      hide Coherent, CasesOf, Step;
      StepKeepsCases(db, ops[0], runId);
      StepKeepsCoherent(db, ops[0]);
      StepEvolves(db, ops[0]);
      RunKeepsCases(Step(db, ops[0]), ops[1..], runId);
    }
  }

  lemma {:induction false} PatchedAllConcat(cache: Cache, a: seq<Event>, b: seq<Event>)
    ensures PatchedAll(cache, a + b) == PatchedAll(PatchedAll(cache, a), b)
    decreases |a|
  {
    if a == [] {
      assert a + b == b;
    } else {
      assert (a + b)[1..] == a[1..] + b;
      PatchedAllConcat(Patched(cache, a[0]), a[1..], b);
    }
  }

  /** A copy that is between two states of a run reaches the later one with the events
      that lead there. */
  lemma {:induction false} EventsReach(cache: Cache, a: RunDb, ops: seq<RunOp>, runId: Id)
    requires Coherent(a) && runId in a.runs && Between(cache, a, Run(a, ops), runId)
    ensures runId in Run(a, ops).runs && Agrees(PatchedAll(cache, EventsOfRun(a, ops, runId)), Run(a, ops), runId)
    decreases |ops|
  {
    hide Coherent, Between, Agrees, Evolves, Step, EventsOf;
    var b := Run(a, ops);
    if ops == [] {
      BetweenOneState(cache, a, runId);
    } else {
      var a' := Step(a, ops[0]);
      RunsEvolve(a, ops);
      StepBetween(cache, a, b, ops[0], runId);
      StepKeepsCoherent(a, ops[0]);
      PatchedAllConcat(cache, EventsOf(a, ops[0], runId), EventsOfRun(a', ops[1..], runId));
      EventsReach(PatchedAll(cache, EventsOf(a, ops[0], runId)), a', ops[1..], runId);
    }
  }

  lemma {:induction false} RunConcat(db: RunDb, xs: seq<RunOp>, ys: seq<RunOp>, runId: Id)
    ensures Run(db, xs + ys) == Run(Run(db, xs), ys)
    ensures EventsOfRun(db, xs + ys, runId) == EventsOfRun(db, xs, runId) + EventsOfRun(Run(db, xs), ys, runId)
    decreases |xs|
  {
    hide Step, EventsOf;
    if xs == [] {
      assert xs + ys == ys;
    } else {
      assert (xs + ys)[1..] == xs[1..] + ys;
      RunConcat(Step(db, xs[0]), xs[1..], ys, runId);
    }
  }

  lemma {:induction false} RunStaysCoherent(db: RunDb, ops: seq<RunOp>, runId: Id)
    requires Coherent(db) && runId in db.runs
    ensures Coherent(Run(db, ops)) && runId in Run(db, ops).runs
  {
    hide Coherent;
    RunsStayCoherent(db, ops);
    RunsEvolve(db, ops);
  }

  lemma PatchingKeepsEntries(cache: Cache, events: seq<Event>)
    ensures PatchedAll(cache, events).items.Some? == cache.items.Some?
    ensures PatchedAll(cache, events).detail.Some? == cache.detail.Some?
    decreases |events|
  {
    if events != [] { PatchingKeepsEntries(Patched(cache, events[0]), events[1..]); }
  }

  /** Entries fetched at one commit at or after the joining of the room, patched by the
      events of all commits since the joining, agree with the tables at the end. */
  lemma EntriesConverge(cache: Cache, joined: RunDb, before: seq<RunOp>, after: seq<RunOp>, runId: Id)
    requires Coherent(joined) && runId in joined.runs && Agrees(cache, Run(joined, before), runId)
    ensures Agrees(PatchedAll(cache, EventsOfRun(joined, before + after, runId)), Run(joined, before + after), runId)
  {
    var fetched := Run(joined, before);
    var caughtUp := PatchedAll(cache, EventsOfRun(joined, before, runId));
    hide Coherent, Run, EventsOfRun, Between, Agrees, Evolves, CasesOf, PatchedAll;
    RunStaysCoherent(joined, before, runId);
    FetchIsBetween(cache, joined, fetched, runId);
    EventsReach(cache, joined, before, runId);
    RunKeepsCases(fetched, after, runId);
    RunsEvolve(fetched, after);
    AgreementIsBetween(caughtUp, fetched, Run(fetched, after), runId);
    EventsReach(caughtUp, fetched, after, runId);
    RunConcat(joined, before, after, runId);
    PatchedAllConcat(cache, EventsOfRun(joined, before, runId), EventsOfRun(fetched, after, runId));
  }

  /** The two entries are patched independently of each other. */
  lemma {:induction false} EntriesAreIndependent(cache: Cache, events: seq<Event>)
    ensures PatchedAll(cache, events).items == PatchedAll(cache.(detail := None), events).items
    ensures PatchedAll(cache, events).detail == PatchedAll(cache.(items := None), events).detail
    decreases |events|
  {
    if events != [] {
      var e := events[0];
      EntriesAreIndependent(Patched(cache, e), events[1..]);
      assert Patched(cache.(detail := None), e) == Patched(cache, e).(detail := None);
      assert Patched(cache.(items := None), e) == Patched(cache, e).(items := None);
    }
  }

  /** The room is joined at one commit; the cases and the detail are fetched by two requests
      at commits of their own, both at or after the joining.  Patched by the events of all
      commits since the joining, in their order, those already in the fetched tables
      included, the copy agrees with the tables at the end: cases, order, results, comments,
      dates, counters, ratios and assignees, and who recorded each case that is not pending. */
  lemma ReplicaConverges(items: seq<RunCaseItem>, detail: RunSummary, joined: RunDb, ops: seq<RunOp>, i: nat, j: nat,
                         runId: Id)
    requires Coherent(joined) && runId in joined.runs && i <= |ops| && j <= |ops|
    requires ItemsFetched(items, Run(joined, ops[..i]), runId) && DetailFetched(detail, Run(joined, ops[..j]), runId)
    ensures var now := PatchedAll(Cache(Some(items), Some(detail)), EventsOfRun(joined, ops, runId));
            && now.items.Some? && ItemsAgree(now.items.value, Run(joined, ops), runId)
            && now.detail.Some? && DetailAgrees(now.detail.value, Run(joined, ops), runId)
  {
    var cache, events := Cache(Some(items), Some(detail)), EventsOfRun(joined, ops, runId);
    PatchingKeepsEntries(cache, events);
    EntriesAreIndependent(cache, events);
    assert ops[..i] + ops[i..] == ops && ops[..j] + ops[j..] == ops;
    hide Coherent, Run, EventsOfRun, ItemsAgree, DetailAgrees, PatchedAll;
    EntriesConverge(cache.(detail := None), joined, ops[..i], ops[i..], runId);
    EntriesConverge(cache.(items := None), joined, ops[..j], ops[j..], runId);
  }

  /** A message that arrives before the entry it is about is there changes nothing and is
      lost. */
  lemma EarlyMessageIsLost(e: Event)
    ensures Patched(Cache(None, None), e) == Cache(None, None)
  {
  }

  /** What a recording changes of its row that a copy shows. */
  predicate ShownAlike(row: TestRunCase, row': TestRunCase) {
    && row'.result == row.result && row'.comment == row.comment && row'.recordedAt == row.recordedAt
    && (row'.result != PENDING ==> row'.recordedById == row.recordedById)
  }

  /** Cases read by the server before a recording but answered after its message: the copy
      is stale exactly when the recording changed something that it shows. */
  lemma LateResponseStaleIff(items: seq<RunCaseItem>, db: RunDb, op: RunOp)
    requires op.RecordOp? && RecordProblem(db, op.runId, op.caseId).None? && ItemsFetched(items, db, op.runId)
    ensures ItemsAgree(items, Step(db, op), op.runId) <==>
            ShownAlike(db.cases[op.caseId], Step(db, op).cases[op.caseId])
  {
    var db' := Step(db, op);
    hide Shift, Rerecorded;
    var row, row' := db.cases[op.caseId], db'.cases[op.caseId];
    assert db'.cases == db.cases[op.caseId := row'] && CaseEvolves(row, row') by { RecordedRow(db, op); }
    assert op.caseId in CasesOf(db.cases, op.runId);
    assert CasesOf(db'.cases, op.runId) == CasesOf(db.cases, op.runId);
    var k :| 0 <= k < |items| && items[k].id == op.caseId;
    hide Recorded, CasesOf, Step;
    assert ItemAgrees(items[k], row);
    assert ItemAgrees(items[k], row') <==> ShownAlike(row, row');
    if ShownAlike(row, row') {
      forall i | 0 <= i < |items| ensures items[i].id in db'.cases && ItemAgrees(items[i], db'.cases[items[i].id]) {
        assert ItemAgrees(items[i], db.cases[items[i].id]);
      }
    }
  }

  lemma RecordedRow(db: RunDb, op: RunOp)
    requires op.RecordOp? && RecordProblem(db, op.runId, op.caseId).None?
    ensures op.caseId in db.cases && op.caseId in Step(db, op).cases
    ensures Step(db, op).cases == db.cases[op.caseId := Step(db, op).cases[op.caseId]]
    ensures CaseEvolves(db.cases[op.caseId], Step(db, op).cases[op.caseId])
  {
  }

  /** After a recording the copied recorder is the stored one exactly when the result is
      not PENDING: clearing a result clears the row's recorder, but the message names the
      user who cleared it. */
  lemma RecorderAgreesIffNotPending(cache: Cache, db: RunDb, op: RunOp, i: nat)
    requires op.RecordOp? && RecordProblem(db, op.runId, op.caseId).None?
    requires cache.items.Some? && i < |cache.items.value| && cache.items.value[i].id == op.caseId
    ensures var now := PatchedAll(cache, EventsOf(db, op, op.runId));
            && now.items.Some? && i < |now.items.value|
            && (now.items.value[i].recordedBy == Step(db, op).cases[op.caseId].recordedById <==> op.result != PENDING)
  {
    var events := EventsOf(db, op, op.runId);
    assert events == [events[0], events[1]];
    PatchedTwo(cache, events[0], events[1]);
  }

  // ----- what a message carries and changes -----

  /** What a patch changes of the entries: a recorded case its four fields in its own item, a
      progress message the ratios, an assignment the assignees; nothing else moves. */
  lemma MessageChanges(cache: Cache, e: Event, i: nat)
    ensures var after := Patched(cache, e);
            && (cache.items == None ==> after.items == None) && (cache.detail == None ==> after.detail == None)
            && (cache.items != None ==>
                  && after.items != None && |after.items.value| == |cache.items.value|
                  && (i < |cache.items.value| ==>
                        var item, item' := cache.items.value[i], after.items.value[i];
                        && item'.id == item.id && item'.position == item.position && item'.snapshot == item.snapshot
                        && (e.CaseRecorded? && e.runCaseId == item.id ==>
                              && item'.result == e.result && item'.comment == e.comment
                              && item'.recordedBy == Some(e.recordedBy) && item'.recordedAt == e.recordedAt)
                        && (!e.CaseRecorded? || e.runCaseId != item.id ==> item' == item)))
            && (cache.detail != None ==>
                  && after.detail != None
                  && after.detail.value.id == cache.detail.value.id
                  && after.detail.value.status == cache.detail.value.status
                  && after.detail.value.progress ==
                     (if e.ProgressUpdated? then e.progress else cache.detail.value.progress)
                  && after.detail.value.assignees ==
                     (if e.AssigneesChanged? then e.userIds else cache.detail.value.assignees))
  {
  }

  /** What the room hears of a recording: the stored row's values, the result it had before,
      the caller as recorder, and the new counters; of a status change the new status; of a
      change of assignees the named users; and nothing of a refused call or of another run. */
  lemma RoomHears(db: RunDb, op: RunOp, runId: Id)
    ensures var events, after := EventsOf(db, op, runId), Step(db, op);
            && (op.RecordOp? && op.runId == runId && RecordProblem(db, runId, op.caseId).None? ==>
                  && op.caseId in after.cases && runId in after.runs && |events| == 2
                  && events[0] == CaseRecorded(op.caseId, op.result, db.cases[op.caseId].result,
                                               after.cases[op.caseId].comment, op.userId,
                                               after.cases[op.caseId].recordedAt)
                  && events[1] == ProgressUpdated(ComputeCounters(after.runs[runId].counters)))
            && (op.StatusOp? && op.runId == runId && StatusSet(db, runId, op.target, op.now).1.Ok? ==>
                  events == [Event.StatusChanged(op.target)])
            && (op.AssignOp? && op.runId == runId && AssigneesSet(db, runId, op.userIds).1.Ok? ==>
                  && |events| == 1 && events[0].AssigneesChanged?
                  && forall u :: u in events[0].userIds <==> u in op.userIds)
            && ((op.CreateOp? || op.SourceOp? || op.runId != runId) ==> events == [])
            && (op.RecordOp? && RecordProblem(db, op.runId, op.caseId).Some? ==> events == [])
            && (op.StatusOp? && StatusSet(db, op.runId, op.target, op.now).1.Err? ==> events == [])
            && (op.AssignOp? && AssigneesSet(db, op.runId, op.userIds).1.Err? ==> events == [])
  {
    hide ComputeCounters, Shift, NewCases, Selected;
  }
}
