/** The dashboard reads no cases: it adds up the counters of the runs, grouped by status.
    Its numbers are nevertheless those of a direct recount of every case. */
module DashboardService {
  import opened Domain
  import opened RunCounters
  import opened RunsService

  /** One row of the grouped query: a status that occurs, how many runs have it, and the
      sums of their counters. */
  datatype StatusGroup = StatusGroup(status: RunStatus, count: nat, sums: Counters)

  datatype Distribution = Distribution(pass: int, fail: int, blocked: int, skipped: int, pending: int)

  datatype Summary = Summary(active: nat, completed: nat, distribution: Distribution)

  /** A counter column; None is the total. */
  function Column(c: Counters, col: Option<CounterField>): int {
    if col.None? then c.total else c.Get(col.value)
  }

  ghost function SumOver(runs: map<Id, TestRun>, ids: set<Id>, col: Option<CounterField>): int
    requires ids <= runs.Keys
  {
    if ids == {} then 0
    else var r :| r in ids; Column(runs[r].counters, col) + SumOver(runs, ids - {r}, col)
  }

  lemma {:induction false} SumWithout(runs: map<Id, TestRun>, ids: set<Id>, r: Id, col: Option<CounterField>)
    requires ids <= runs.Keys && r in ids
    ensures SumOver(runs, ids, col) == Column(runs[r].counters, col) + SumOver(runs, ids - {r}, col)
    decreases ids
  {
    var q :| q in ids && SumOver(runs, ids, col) == Column(runs[q].counters, col) + SumOver(runs, ids - {q}, col);
    if q != r {
      SumWithout(runs, ids - {q}, r, col);
      SumWithout(runs, ids - {r}, q, col);
      assert ids - {q} - {r} == ids - {r} - {q};
    }
  }

  lemma {:induction false} SumUnion(runs: map<Id, TestRun>, a: set<Id>, b: set<Id>, col: Option<CounterField>)
    requires a <= runs.Keys && b <= runs.Keys && a !! b
    ensures SumOver(runs, a + b, col) == SumOver(runs, a, col) + SumOver(runs, b, col)
    decreases a
  {
    if a == {} {
      assert a + b == b;
    } else {
      var r :| r in a;
      SumWithout(runs, a, r, col);
      SumWithout(runs, a + b, r, col);
      assert (a + b) - {r} == (a - {r}) + b;
      SumUnion(runs, a - {r}, b, col);
    }
  }

  ghost function WithStatus(runs: map<Id, TestRun>, status: RunStatus): set<Id> {
    set r | r in runs && runs[r].status == status
  }

  /** What the database promises for GROUP BY status: one group per occurring status. */
  ghost predicate GroupsOf(runs: map<Id, TestRun>, groups: seq<StatusGroup>) {
    && (forall i, j :: 0 <= i < j < |groups| ==> groups[i].status != groups[j].status)
    && (forall r :: r in runs ==> exists i :: 0 <= i < |groups| && groups[i].status == runs[r].status)
    && (forall i :: 0 <= i < |groups| ==>
          && groups[i].count == |WithStatus(runs, groups[i].status)| && groups[i].count > 0
          && forall col :: Column(groups[i].sums, col) == SumOver(runs, WithStatus(runs, groups[i].status), col))
  }

  ghost function InGroups(runs: map<Id, TestRun>, groups: seq<StatusGroup>): (ids: set<Id>)
    ensures ids <= runs.Keys
  {
    set r, i | r in runs && 0 <= i < |groups| && groups[i].status == runs[r].status :: r
  }

  lemma NextGroup(runs: map<Id, TestRun>, groups: seq<StatusGroup>, k: nat, col: Option<CounterField>)
    requires GroupsOf(runs, groups) && k < |groups|
    ensures SumOver(runs, InGroups(runs, groups[..k + 1]), col)
            == SumOver(runs, InGroups(runs, groups[..k]), col) + Column(groups[k].sums, col)
  {
    var a, b := InGroups(runs, groups[..k]), WithStatus(runs, groups[k].status);
    NextInGroups(runs, groups, k);
    GroupsAreDisjoint(runs, groups, k);
    GroupSums(runs, groups, k, col);
    hide InGroups, WithStatus, GroupsOf, SumOver;
    SumUnion(runs, a, b, col);
  }

  lemma GroupSums(runs: map<Id, TestRun>, groups: seq<StatusGroup>, k: nat, col: Option<CounterField>)
    requires GroupsOf(runs, groups) && k < |groups|
    ensures Column(groups[k].sums, col) == SumOver(runs, WithStatus(runs, groups[k].status), col)
  {
  }

  lemma GroupsAreDisjoint(runs: map<Id, TestRun>, groups: seq<StatusGroup>, k: nat)
    requires GroupsOf(runs, groups) && k < |groups|
    ensures InGroups(runs, groups[..k]) !! WithStatus(runs, groups[k].status)
  {
  }

  lemma NextInGroups(runs: map<Id, TestRun>, groups: seq<StatusGroup>, k: nat)
    requires k < |groups|
    ensures InGroups(runs, groups[..k + 1]) == InGroups(runs, groups[..k]) + WithStatus(runs, groups[k].status)
  {
    var a, b := InGroups(runs, groups[..k]), WithStatus(runs, groups[k].status);
    forall r ensures r in InGroups(runs, groups[..k + 1]) <==> r in a || r in b {
      if r in b { assert groups[..k + 1][k].status == runs[r].status; }
      if r in a {
        var i :| 0 <= i < k && groups[..k][i].status == runs[r].status;
        assert groups[..k + 1][i].status == runs[r].status;
      }
      if r in InGroups(runs, groups[..k + 1]) {
        var i :| 0 <= i < k + 1 && groups[..k + 1][i].status == runs[r].status;
        assert i < k ==> groups[..k][i].status == runs[r].status;
      }
    }
  }

  lemma NoGroups(runs: map<Id, TestRun>, groups: seq<StatusGroup>)
    ensures forall col :: SumOver(runs, InGroups(runs, groups[..0]), col) == 0
    ensures CountedSoFar(runs, groups, 0, IN_PROGRESS, 0) && CountedSoFar(runs, groups, 0, COMPLETED, 0)
  {
    assert InGroups(runs, groups[..0]) == {};
  }

  lemma AllGroups(runs: map<Id, TestRun>, groups: seq<StatusGroup>)
    requires GroupsOf(runs, groups)
    ensures InGroups(runs, groups) == runs.Keys
  {
  }

  /** The accumulation loop of the summary. */
  method Summarise(groups: seq<StatusGroup>, ghost runs: map<Id, TestRun>) returns (s: Summary)
    requires GroupsOf(runs, groups)
    ensures s.active == |WithStatus(runs, IN_PROGRESS)| && s.completed == |WithStatus(runs, COMPLETED)|
    ensures s.distribution.pass == SumOver(runs, runs.Keys, Some(PassedCount))
    ensures s.distribution.fail == SumOver(runs, runs.Keys, Some(FailedCount))
    ensures s.distribution.blocked == SumOver(runs, runs.Keys, Some(BlockedCount))
    ensures s.distribution.skipped == SumOver(runs, runs.Keys, Some(SkippedCount))
    ensures var d, total := s.distribution, SumOver(runs, runs.Keys, None);
            d.pending == if total - d.pass - d.fail - d.blocked - d.skipped > 0
                         then total - d.pass - d.fail - d.blocked - d.skipped else 0
  {
    hide SumOver, InGroups, GroupsOf, WithStatus, CountedSoFar;
    NoGroups(runs, groups);
    var active, completed := 0, 0;
    var total, passed, failed, blocked, skipped := 0, 0, 0, 0, 0;
    for k := 0 to |groups|
      invariant total == SumOver(runs, InGroups(runs, groups[..k]), None)
      invariant passed == SumOver(runs, InGroups(runs, groups[..k]), Some(PassedCount))
      invariant failed == SumOver(runs, InGroups(runs, groups[..k]), Some(FailedCount))
      invariant blocked == SumOver(runs, InGroups(runs, groups[..k]), Some(BlockedCount))
      invariant skipped == SumOver(runs, InGroups(runs, groups[..k]), Some(SkippedCount))
      invariant CountedSoFar(runs, groups, k, IN_PROGRESS, active)
      invariant CountedSoFar(runs, groups, k, COMPLETED, completed)
    {
      var group := groups[k];
      if group.status == IN_PROGRESS { active := group.count; }
      if group.status == COMPLETED { completed := group.count; }
      NextGroup(runs, groups, k, None);
      NextGroup(runs, groups, k, Some(PassedCount));
      NextGroup(runs, groups, k, Some(FailedCount));
      NextGroup(runs, groups, k, Some(BlockedCount));
      NextGroup(runs, groups, k, Some(SkippedCount));
      NextColumn(runs, groups, k);
      total := total + group.sums.total;
      passed := passed + group.sums.passed;
      failed := failed + group.sums.failed;
      blocked := blocked + group.sums.blocked;
      skipped := skipped + group.sums.skipped;
    }
    assert groups[..|groups|] == groups;
    AllGroups(runs, groups);
    CountedAll(runs, groups, IN_PROGRESS, active);
    CountedAll(runs, groups, COMPLETED, completed);
    var rest := total - passed - failed - blocked - skipped;
    s := Summary(active, completed, Distribution(passed, failed, blocked, skipped, if rest > 0 then rest else 0));
  }

  ghost predicate CountedSoFar(runs: map<Id, TestRun>, groups: seq<StatusGroup>, k: nat, status: RunStatus, n: nat)
    requires k <= |groups|
  {
    n == if exists i :: 0 <= i < k && groups[i].status == status then |WithStatus(runs, status)| else 0
  }

  lemma CountedAll(runs: map<Id, TestRun>, groups: seq<StatusGroup>, status: RunStatus, n: nat)
    requires GroupsOf(runs, groups) && CountedSoFar(runs, groups, |groups|, status, n)
    ensures n == |WithStatus(runs, status)|
  {
    if !exists i :: 0 <= i < |groups| && groups[i].status == status {
      assert WithStatus(runs, status) == {};
    }
  }

  lemma NextColumn(runs: map<Id, TestRun>, groups: seq<StatusGroup>, k: nat)
    requires GroupsOf(runs, groups) && k < |groups|
    ensures forall status, n: nat :: groups[k].status != status && CountedSoFar(runs, groups, k, status, n)
              ==> CountedSoFar(runs, groups, k + 1, status, n)
    ensures CountedSoFar(runs, groups, k + 1, groups[k].status, groups[k].count)
  {
  }

  // ----- the recount -----

  ghost function CasesInRuns(cases: map<Id, TestRunCase>, ids: set<Id>, result: RunCaseResult): set<Id> {
    set c | c in cases && cases[c].testRunId in ids && cases[c].result == result
  }

  ghost function AllCasesWith(cases: map<Id, TestRunCase>, result: RunCaseResult): set<Id> {
    set c | c in cases && cases[c].result == result
  }

  lemma RunColumn(db: RunDb, r: Id, result: RunCaseResult)
    requires Coherent(db) && r in db.runs
    ensures FieldOf(result).Some? ==> Column(db.runs[r].counters, FieldOf(result)) == |CasesWith(db.cases, r, result)|
    ensures Column(db.runs[r].counters, None) == |CasesOf(db.cases, r)|
  {
    assert RunSound(db, r);
  }

  ghost function CasesIn(cases: map<Id, TestRunCase>, ids: set<Id>): set<Id> {
    set c | c in cases && cases[c].testRunId in ids
  }

  lemma SplitOffRun(cases: map<Id, TestRunCase>, ids: set<Id>, r: Id, result: RunCaseResult)
    requires r in ids
    ensures |CasesInRuns(cases, ids, result)| == |CasesInRuns(cases, ids - {r}, result)| + |CasesWith(cases, r, result)|
    ensures |CasesIn(cases, ids)| == |CasesIn(cases, ids - {r})| + |CasesOf(cases, r)|
  {
    var a, b := CasesInRuns(cases, ids - {r}, result), CasesWith(cases, r, result);
    assert CasesInRuns(cases, ids, result) == a + b && a !! b;
    var c, d := CasesIn(cases, ids - {r}), CasesOf(cases, r);
    assert CasesIn(cases, ids) == c + d && c !! d;
  }

  /** Summing a counter over some runs recounts the cases of those runs. */
  lemma {:induction false} SumIsRecount(db: RunDb, ids: set<Id>, result: RunCaseResult)
    requires Coherent(db) && ids <= db.runs.Keys
    ensures FieldOf(result).Some? ==> SumOver(db.runs, ids, FieldOf(result)) == |CasesInRuns(db.cases, ids, result)|
    ensures SumOver(db.runs, ids, None) == |CasesIn(db.cases, ids)|
    decreases ids
  {
    if ids == {} {
      assert CasesInRuns(db.cases, ids, result) == {} && CasesIn(db.cases, ids) == {};
    } else {
      hide Coherent, CasesInRuns, CasesIn, CasesWith, CasesOf;
      var r :| r in ids;
      SumWithout(db.runs, ids, r, FieldOf(result));
      SumWithout(db.runs, ids, r, None);
      SumIsRecount(db, ids - {r}, result);
      RunColumn(db, r, result);
      SplitOffRun(db.cases, ids, r, result);
    }
  }

  lemma ResultsAreDisjoint(cases: map<Id, TestRunCase>, a: RunCaseResult, b: RunCaseResult)
    requires a != b
    ensures AllCasesWith(cases, a) !! AllCasesWith(cases, b)
  {
  }

  lemma EveryCaseHasResult(cases: map<Id, TestRunCase>)
    ensures cases.Keys == AllCasesWith(cases, PENDING) + AllCasesWith(cases, PASS) + AllCasesWith(cases, FAIL)
                          + AllCasesWith(cases, BLOCKED) + AllCasesWith(cases, SKIPPED)
  {
    forall x | x in cases ensures x in AllCasesWith(cases, cases[x].result) {}
    hide AllCasesWith;
    forall x | x in cases
      ensures x in AllCasesWith(cases, PENDING) + AllCasesWith(cases, PASS) + AllCasesWith(cases, FAIL)
                   + AllCasesWith(cases, BLOCKED) + AllCasesWith(cases, SKIPPED)
    {
      match cases[x].result { case PENDING => case PASS => case FAIL => case BLOCKED => case SKIPPED => }
    }
    forall r, x | x in AllCasesWith(cases, r) ensures x in cases { AllCasesAreCases(cases, r); }
  }

  lemma AllCasesAreCases(cases: map<Id, TestRunCase>, r: RunCaseResult)
    ensures AllCasesWith(cases, r) <= cases.Keys
  {
  }

  lemma ResultsPartition(cases: map<Id, TestRunCase>)
    ensures |cases| == |AllCasesWith(cases, PENDING)| + |AllCasesWith(cases, PASS)| + |AllCasesWith(cases, FAIL)|
              + |AllCasesWith(cases, BLOCKED)| + |AllCasesWith(cases, SKIPPED)|
  {
    var a, b, c, d, e := AllCasesWith(cases, PENDING), AllCasesWith(cases, PASS), AllCasesWith(cases, FAIL),
                         AllCasesWith(cases, BLOCKED), AllCasesWith(cases, SKIPPED);
    EveryCaseHasResult(cases);
    forall x, y | x != y ensures AllCasesWith(cases, x) !! AllCasesWith(cases, y) { ResultsAreDisjoint(cases, x, y); }
    hide AllCasesWith;
    assert a !! b && a !! c && b !! c && a !! d && b !! d && c !! d && a !! e && b !! e && c !! e && d !! e;
    assert (a + b) !! c && (a + b + c) !! d && (a + b + c + d) !! e;
    DisjointSizes(a, b, c, d, e);
    assert |cases| == |cases.Keys|;
  }

  /** In every coherent state the sums of counters are a recount of all cases by result,
      the difference taken for PENDING is the number of pending cases, and the five numbers
      add up to the number of cases. */
  lemma DashboardIsRecount(db: RunDb)
    requires Coherent(db)
    ensures forall result :: FieldOf(result).Some? ==>
              SumOver(db.runs, db.runs.Keys, FieldOf(result)) == |AllCasesWith(db.cases, result)|
    ensures SumOver(db.runs, db.runs.Keys, None) == |db.cases|
    ensures SumOver(db.runs, db.runs.Keys, None)
              - SumOver(db.runs, db.runs.Keys, Some(PassedCount)) - SumOver(db.runs, db.runs.Keys, Some(FailedCount))
              - SumOver(db.runs, db.runs.Keys, Some(BlockedCount)) - SumOver(db.runs, db.runs.Keys, Some(SkippedCount))
            == |AllCasesWith(db.cases, PENDING)|
  {
    IdsBelowNext(db);
    forall result | FieldOf(result).Some?
      ensures SumOver(db.runs, db.runs.Keys, FieldOf(result)) == |AllCasesWith(db.cases, result)|
    {
      SumIsRecount(db, db.runs.Keys, result);
      assert CasesInRuns(db.cases, db.runs.Keys, result) == AllCasesWith(db.cases, result);
    }
    SumIsRecount(db, db.runs.Keys, PENDING);
    assert CasesIn(db.cases, db.runs.Keys) == db.cases.Keys;
    ResultsPartition(db.cases);
    assert FieldOf(PASS) == Some(PassedCount) && FieldOf(FAIL) == Some(FailedCount);
    assert FieldOf(BLOCKED) == Some(BlockedCount) && FieldOf(SKIPPED) == Some(SkippedCount);
  }

  /** The summary of a coherent state is the recount; clamping the pending number at zero
      never changes it. */
  method SummaryOf(groups: seq<StatusGroup>, ghost db: RunDb) returns (s: Summary)
    requires Coherent(db) && GroupsOf(db.runs, groups)
    ensures var d := s.distribution;
            && d.pass == |AllCasesWith(db.cases, PASS)| && d.fail == |AllCasesWith(db.cases, FAIL)|
            && d.blocked == |AllCasesWith(db.cases, BLOCKED)| && d.skipped == |AllCasesWith(db.cases, SKIPPED)|
            && d.pending == |AllCasesWith(db.cases, PENDING)|
            && d.pass + d.fail + d.blocked + d.skipped + d.pending == |db.cases|
    ensures s.active == |WithStatus(db.runs, IN_PROGRESS)| && s.completed == |WithStatus(db.runs, COMPLETED)|
  {
    hide SumOver, AllCasesWith, WithStatus, Coherent, GroupsOf;
    s := Summarise(groups, db.runs);
    DashboardIsRecount(db);
    ResultsPartition(db.cases);
    assert FieldOf(PASS) == Some(PassedCount) && FieldOf(FAIL) == Some(FailedCount);
    assert FieldOf(BLOCKED) == Some(BlockedCount) && FieldOf(SKIPPED) == Some(SkippedCount);
  }
}
