/** Recording results without isolation: a recorder reads a case's current result in one
    step and writes the new result together with the counter shift in a later one, and
    recorders interleave freely.  The model is one run's results and counters. */
module CounterDrift {
  import opened Domain
  import opened RunCounters
  import opened RunsService

  type Recorder = nat

  datatype Reading = Reading(caseId: Id, result: RunCaseResult)

  /** One committed recording: what it had read, what it overwrote, what it wrote. */
  datatype Commit = Commit(caseId: Id, read: RunCaseResult, overwritten: RunCaseResult, written: RunCaseResult)

  datatype Shared = Shared(results: map<Id, RunCaseResult>, counters: Counters,
                           readings: map<Recorder, Reading>, log: seq<Commit>)

  datatype Event =
    | Reads(who: Recorder, caseId: Id)
    | Commits(who: Recorder, result: RunCaseResult)

  predicate Enabled(s: Shared, e: Event) {
    match e
    case Reads(who, c) => who !in s.readings && c in s.results
    case Commits(who, _) => who in s.readings && s.readings[who].caseId in s.results
  }

  function Next(s: Shared, e: Event): Shared
    requires Enabled(s, e)
  {
    match e
    case Reads(who, c) => s.(readings := s.readings[who := Reading(c, s.results[c])])
    case Commits(who, result) =>
      var was := s.readings[who];
      s.(results := s.results[was.caseId := result], counters := Shift(s.counters, was.result, result),
         readings := s.readings - {who}, log := s.log + [Commit(was.caseId, was.result, s.results[was.caseId], result)])
  }

  ghost predicate Trace(s: Shared, events: seq<Event>)
    decreases |events|
  {
    events == [] || (Enabled(s, events[0]) && Trace(Next(s, events[0]), events[1..]))
  }

  ghost function After(s: Shared, events: seq<Event>): Shared
    requires Trace(s, events)
    decreases |events|
  {
    if events == [] then s else After(Next(s, events[0]), events[1..])
  }

  ghost function Counted(results: map<Id, RunCaseResult>, f: CounterField): set<Id> {
    set c | c in results && FieldOf(results[c]) == Some(f)
  }

  ghost function Count(results: map<Id, RunCaseResult>, f: CounterField): nat {
    |Counted(results, f)|
  }

  /** How far a counter is off. */
  ghost function Drift(s: Shared, f: CounterField): int {
    s.counters.Get(f) - Count(s.results, f)
  }

  function Weight(result: RunCaseResult, f: CounterField): int {
    if FieldOf(result) == Some(f) then 1 else 0
  }

  /** Sum over the log of [overwritten result counts under f] - [read result counts under f]. */
  function Imbalance(log: seq<Commit>, f: CounterField): int {
    if log == [] then 0
    else
      var c := log[|log| - 1];
      Imbalance(log[..|log| - 1], f) + Weight(c.overwritten, f) - Weight(c.read, f)
  }

  lemma CountAfterWrite(results: map<Id, RunCaseResult>, c: Id, result: RunCaseResult, f: CounterField)
    requires c in results
    ensures Count(results[c := result], f) == Count(results, f) + Weight(result, f) - Weight(results[c], f)
  {
    var before, after := Counted(results, f), Counted(results[c := result], f);
    assert before - {c} == after - {c};
    assert |before - {c}| == |before| - if c in before then 1 else 0;
    assert |after - {c}| == |after| - if c in after then 1 else 0;
  }

  lemma NextConserves(s: Shared, e: Event, f: CounterField)
    requires Enabled(s, e)
    ensures Drift(Next(s, e), f) - Imbalance(Next(s, e).log, f) == Drift(s, f) - Imbalance(s.log, f)
  {
    if e.Commits? {
      var was := s.readings[e.who];
      CountAfterWrite(s.results, was.caseId, e.result, f);
      assert Next(s, e).log[..|s.log|] == s.log;
    }
  }

  /** Drift conservation: over every interleaving, a counter is off by exactly what the
      commits overwrote unread. */
  lemma {:induction false} DriftIsImbalance(s: Shared, events: seq<Event>, f: CounterField)
    requires Trace(s, events)
    ensures Drift(After(s, events), f) - Imbalance(After(s, events).log, f) == Drift(s, f) - Imbalance(s.log, f)
    decreases |events|
  {
    if events != [] {
      NextConserves(s, events[0], f);
      DriftIsImbalance(Next(s, events[0]), events[1..], f);
    }
  }

  ghost predicate Exact(s: Shared) {
    forall f: CounterField :: Drift(s, f) == 0
  }

  ghost predicate Balanced(log: seq<Commit>) {
    forall f: CounterField :: Imbalance(log, f) == 0
  }

  /** From exact counters and an empty log, the counters end exact if and only if for each
      counter the results overwritten and the results read balance. */
  lemma ExactIffBalanced(s: Shared, events: seq<Event>)
    requires Trace(s, events) && Exact(s) && s.log == []
    ensures Exact(After(s, events)) <==> Balanced(After(s, events).log)
  {
    var z := After(s, events);
    forall f: CounterField ensures Drift(z, f) == Imbalance(z.log, f) {
      assert Drift(s, f) == 0;
      DriftIsImbalance(s, events, f);
    }
    if Balanced(z.log) {
      forall f: CounterField ensures Drift(z, f) == 0 { assert Imbalance(z.log, f) == 0; }
    }
    if Exact(z) {
      forall f: CounterField ensures Imbalance(z.log, f) == 0 { assert Drift(z, f) == 0; }
    }
  }

  // ----- the guard of each commit -----

  /** A commit finds the result it read still in place. */
  predicate OverwritesWhatItRead(s: Shared, e: Event)
    requires Enabled(s, e)
  {
    e.Commits? ==> s.results[s.readings[e.who].caseId] == s.readings[e.who].result
  }

  lemma WeightsDiffer(a: RunCaseResult, b: RunCaseResult) returns (f: CounterField)
    requires a != b
    ensures Weight(a, f) != Weight(b, f)
  {
    f := if FieldOf(a).Some? then FieldOf(a).value else FieldOf(b).value;
  }

  lemma LogGrows(log: seq<Commit>, c: Commit, f: CounterField)
    ensures Imbalance(log + [c], f) == Imbalance(log, f) + Weight(c.overwritten, f) - Weight(c.read, f)
  {
    assert (log + [c])[..|log|] == log;
  }

  /** The columns tell all five results apart: one step keeps exact counters exact if and
      only if a commit overwrites the result it read. */
  lemma NextExactIff(s: Shared, e: Event)
    requires Enabled(s, e) && Exact(s)
    ensures Exact(Next(s, e)) <==> OverwritesWhatItRead(s, e)
  {
    hide FieldOf, Count, Shift;
    var s' := Next(s, e);
    if e.Commits? {
      var was := s.readings[e.who];
      var c := Commit(was.caseId, was.result, s.results[was.caseId], e.result);
      forall f ensures Drift(s', f) == Weight(c.overwritten, f) - Weight(c.read, f) {
        assert Drift(s, f) == 0;
        NextConserves(s, e, f);
        LogGrows(s.log, c, f);
      }
      if c.overwritten != c.read {
        var f := WeightsDiffer(c.overwritten, c.read);
        assert Drift(s', f) != 0;
      }
    } else {
      forall f ensures Drift(s', f) == 0 { assert Drift(s, f) == 0; }
    }
  }

  /** The counters are exact after every prefix. */
  ghost predicate ExactThroughout(s: Shared, events: seq<Event>)
    requires Trace(s, events)
    decreases |events|
  {
    Exact(s) && (events != [] ==> ExactThroughout(Next(s, events[0]), events[1..]))
  }

  ghost predicate EachOverwritesWhatItRead(s: Shared, events: seq<Event>)
    requires Trace(s, events)
    decreases |events|
  {
    events != [] ==> OverwritesWhatItRead(s, events[0]) && EachOverwritesWhatItRead(Next(s, events[0]), events[1..])
  }

  /** Over every interleaving: the counters are exact after every prefix if and only if each
      commit overwrites the result it read. */
  lemma {:induction false} ExactThroughoutIff(s: Shared, events: seq<Event>)
    requires Trace(s, events) && Exact(s)
    ensures ExactThroughout(s, events) <==> EachOverwritesWhatItRead(s, events)
    decreases |events|
  {
    hide Exact, OverwritesWhatItRead, Next, Enabled;
    if events != [] {
      var s' := Next(s, events[0]);
      NextExactIff(s, events[0]);
      assert ExactThroughout(s', events[1..]) ==> Exact(s');
      if Exact(s') { ExactThroughoutIff(s', events[1..]); }
    }
  }

  // ----- the log under interleaving -----

  /** The result that a log leaves a case with. */
  function Left(log: seq<Commit>, caseId: Id, initial: RunCaseResult): RunCaseResult {
    if log == [] then initial
    else if log[|log| - 1].caseId == caseId then log[|log| - 1].written
    else Left(log[..|log| - 1], caseId, initial)
  }

  /** Each entry's "before" is the "after" of the entry before it about the same case, or
      the result at the start. */
  ghost predicate HandsOver(log: seq<Commit>, initial: map<Id, RunCaseResult>) {
    log == []
    || var before, c := log[..|log| - 1], log[|log| - 1];
       HandsOver(before, initial) && c.caseId in initial && c.read == Left(before, c.caseId, initial[c.caseId])
  }

  /** The results are those that the log leaves. */
  ghost predicate LogTells(s: Shared, initial: map<Id, RunCaseResult>) {
    s.results.Keys == initial.Keys && forall c :: c in s.results ==> s.results[c] == Left(s.log, c, initial[c])
  }

  lemma LeftAfter(log: seq<Commit>, c: Commit, initial: map<Id, RunCaseResult>)
    ensures forall x, r :: Left(log + [c], x, r) == if x == c.caseId then c.written else Left(log, x, r)
    ensures HandsOver(log + [c], initial) <==>
            HandsOver(log, initial) && c.caseId in initial && c.read == Left(log, c.caseId, initial[c.caseId])
  {
    assert (log + [c])[..|log|] == log;
  }

  lemma NextTells(s: Shared, e: Event, initial: map<Id, RunCaseResult>)
    requires Enabled(s, e) && LogTells(s, initial)
    ensures LogTells(Next(s, e), initial)
    ensures HandsOver(Next(s, e).log, initial) <==> HandsOver(s.log, initial) && OverwritesWhatItRead(s, e)
  {
    hide Shift, Left, HandsOver;
    if e.Commits? {
      var was := s.readings[e.who];
      LeftAfter(s.log, Commit(was.caseId, was.result, s.results[was.caseId], e.result), initial);
    }
  }

  lemma {:induction false} HandsOverFrom(s: Shared, events: seq<Event>, initial: map<Id, RunCaseResult>)
    requires Trace(s, events) && LogTells(s, initial)
    ensures HandsOver(After(s, events).log, initial) <==>
            HandsOver(s.log, initial) && EachOverwritesWhatItRead(s, events)
    decreases |events|
  {
    hide LogTells, HandsOver, Next, Enabled, OverwritesWhatItRead;
    if events != [] {
      NextTells(s, events[0], initial);
      HandsOverFrom(Next(s, events[0]), events[1..], initial);
    }
  }

  /** Over every interleaving: the entries written hand over if and only if each commit
      overwrites the result it read. */
  lemma HandsOverIff(s: Shared, events: seq<Event>)
    requires Trace(s, events) && s.log == []
    ensures HandsOver(After(s, events).log, s.results) <==> EachOverwritesWhatItRead(s, events)
  {
    HandsOverFrom(s, events, s.results);
  }

  lemma TraceCons(s: Shared, e: Event, rest: seq<Event>)
    requires Enabled(s, e) && Trace(Next(s, e), rest)
    ensures Trace(s, [e] + rest) && After(s, [e] + rest) == After(Next(s, e), rest)
  {
    assert ([e] + rest)[1..] == rest;
  }

  /** No two recorders have the same case open. */
  ghost predicate Exclusive(s: Shared) {
    forall a, b :: a in s.readings && b in s.readings && s.readings[a].caseId == s.readings[b].caseId ==> a == b
  }

  ghost predicate ExclusiveTrace(s: Shared, events: seq<Event>)
    requires Trace(s, events)
    decreases |events|
  {
    Exclusive(s) && (events != [] ==> ExclusiveTrace(Next(s, events[0]), events[1..]))
  }

  ghost predicate ReadingsCurrent(s: Shared) {
    forall a :: a in s.readings ==>
        s.readings[a].caseId in s.results && s.results[s.readings[a].caseId] == s.readings[a].result
  }

  /** If a case is never opened by a second recorder before the first commits, every
      recorder overwrites what it read and the counters stay exact. */
  lemma {:induction false} ExclusiveCasesStayExact(s: Shared, events: seq<Event>)
    requires Trace(s, events) && ExclusiveTrace(s, events) && ReadingsCurrent(s) && Exact(s)
    ensures Exact(After(s, events)) && ReadingsCurrent(After(s, events))
    decreases |events|
  {
    if events != [] {
      var e := events[0];
      var s' := Next(s, e);
      forall f: CounterField ensures Drift(s', f) == 0 {
        assert Drift(s, f) == 0;
        NextConserves(s, e, f);
        if e.Commits? { assert s'.log[..|s.log|] == s.log; }
      }
      assert ReadingsCurrent(s');
      ExclusiveCasesStayExact(s', events[1..]);
    }
  }

  const ONE_PENDING_CASE: Shared := Shared(map[0 := PENDING], Counters(1, 0, 0, 0, 0), map[], [])

  const OVERLAP: seq<Event> := [Reads(0, 0)] + ([Reads(1, 0)] + ([Commits(0, PASS)] + ([Commits(1, PASS)] + [])))

  lemma OverlapTrace()
    ensures Trace(ONE_PENDING_CASE, OVERLAP)
    ensures After(ONE_PENDING_CASE, OVERLAP).log == [Commit(0, PENDING, PENDING, PASS), Commit(0, PENDING, PASS, PASS)]
  {
    hide Shift, Trace;
    var s1 := Next(ONE_PENDING_CASE, Reads(0, 0));
    var s2 := Next(s1, Reads(1, 0));
    var s3 := Next(s2, Commits(0, PASS));
    NoEvents(Next(s3, Commits(1, PASS)));
    TraceCons(s3, Commits(1, PASS), []);
    TraceCons(s2, Commits(0, PASS), [Commits(1, PASS)] + []);
    TraceCons(s1, Reads(1, 0), [Commits(0, PASS)] + ([Commits(1, PASS)] + []));
    TraceCons(ONE_PENDING_CASE, Reads(0, 0), [Reads(1, 0)] + ([Commits(0, PASS)] + ([Commits(1, PASS)] + [])));
  }

  lemma NoEvents(s: Shared)
    ensures Trace(s, []) && After(s, []) == s
  {
  }

  /** Two recorders that both read PENDING before either commits count one PASS twice. */
  lemma OverlapDrifts()
    ensures Trace(ONE_PENDING_CASE, OVERLAP) && Exact(ONE_PENDING_CASE)
    ensures Drift(After(ONE_PENDING_CASE, OVERLAP), PassedCount) == 1 && !Exact(After(ONE_PENDING_CASE, OVERLAP))
  {
    var s := ONE_PENDING_CASE;
    forall f ensures Drift(s, f) == 0 {
      assert Counted(s.results, f) == {};
    }
    OverlapTrace();
    hide Trace, After, Drift;
    DoubleCount(After(s, OVERLAP).log);
    DriftIsImbalance(s, OVERLAP, PassedCount);
    assert Drift(After(s, OVERLAP), PassedCount) == 1;
  }

  lemma DoubleCount(log: seq<Commit>)
    requires log == [Commit(0, PENDING, PENDING, PASS), Commit(0, PENDING, PASS, PASS)]
    ensures Imbalance(log, PassedCount) == 1
  {
    var one := log[..|log| - 1];
    assert one == [Commit(0, PENDING, PENDING, PASS)];
    assert one[..|one| - 1] == [];
    assert Imbalance(one, PassedCount) == 0;
  }

  /** One run of the run tables seen as results and counters. */
  ghost function View(db: RunDb, runId: Id): Shared
    requires runId in db.runs
  {
    Shared(map c | c in db.cases && db.cases[c].testRunId == runId :: db.cases[c].result, db.runs[runId].counters,
           map[], [])
  }

  /** The atomic transaction of RunsService is a read directly followed by its commit. */
  lemma AtomicRecordIsReadThenCommit(db: RunDb, runId: Id, caseId: Id, userId: Id, result: RunCaseResult,
                                     comment: Option<string>, now: int)
    requires RecordProblem(db, runId, caseId).None?
    ensures var s := View(db, runId);
            var events := [Reads(0, caseId), Commits(0, result)];
            && Trace(s, events)
            && After(s, events).(log := []) == View(Recorded(db, runId, caseId, userId, result, comment, now).0, runId)
  {
    var s := View(db, runId);
    var s1 := Next(s, Reads(0, caseId));
    TraceCons(s1, Commits(0, result), []);
    TraceCons(s, Reads(0, caseId), [Commits(0, result)] + []);
    assert [Reads(0, caseId)] + ([Commits(0, result)] + []) == [Reads(0, caseId), Commits(0, result)];
    var z := Next(s1, Commits(0, result));
    var after := View(Recorded(db, runId, caseId, userId, result, comment, now).0, runId);
    assert z.results == after.results && z.readings == after.readings;
  }
}
