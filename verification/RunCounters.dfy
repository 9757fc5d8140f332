/** The denormalised counters of a run and the ratios computed from them. */
module RunCounters {
  import opened Domain

  datatype RunCaseResult = PENDING | PASS | FAIL | BLOCKED | SKIPPED

  datatype CounterField = PassedCount | FailedCount | BlockedCount | SkippedCount

  /** COUNTER_FIELD_BY_RESULT: PENDING has no column. */
  function FieldOf(result: RunCaseResult): Option<CounterField> {
    match result
    case PENDING => None
    case PASS => Some(PassedCount)
    case FAIL => Some(FailedCount)
    case BLOCKED => Some(BlockedCount)
    case SKIPPED => Some(SkippedCount)
  }

  datatype Counters = Counters(total: int, passed: int, failed: int, blocked: int, skipped: int) {
    function Get(f: CounterField): int {
      match f
      case PassedCount => passed
      case FailedCount => failed
      case BlockedCount => blocked
      case SkippedCount => skipped
    }

    function Plus(f: CounterField, n: int): Counters {
      match f
      case PassedCount => this.(passed := passed + n)
      case FailedCount => this.(failed := failed + n)
      case BlockedCount => this.(blocked := blocked + n)
      case SkippedCount => this.(skipped := skipped + n)
    }

    function Recorded(): int {
      passed + failed + blocked + skipped
    }
  }

  lemma PlusGet(c: Counters, f: CounterField, n: int)
    ensures c.Plus(f, n).total == c.total
    ensures forall g: CounterField :: c.Plus(f, n).Get(g) == c.Get(g) + if f == g then n else 0
  {
  }

  datatype RunProgress = RunProgress(counters: Counters, progress: real, passRate: real)

  function Clamp01(value: real): real {
    var low := if value > 0.0 then value else 0.0;
    if low < 1.0 then low else 1.0
  }

  function Ratio(part: int, whole: int): real {
    if whole == 0 then 0.0 else part as real / whole as real
  }

  function ComputeCounters(c: Counters): RunProgress {
    RunProgress(c, Clamp01(Ratio(c.Recorded(), c.total)), Clamp01(Ratio(c.passed, c.Recorded())))
  }

  ghost predicate NonNegative(c: Counters) {
    c.total >= 0 && c.passed >= 0 && c.failed >= 0 && c.blocked >= 0 && c.skipped >= 0
  }

  lemma RatioWithin(part: int, whole: int)
    requires 0 <= part && 0 <= whole
    ensures Clamp01(Ratio(part, whole)) == Ratio(part, whole) <==> whole == 0 || part <= whole
  {
    if whole > 0 {
      var x, w := Ratio(part, whole), whole as real;
      assert x * w == part as real;
      if part <= whole {
        assert 0.0 <= x <= 1.0;
      } else {
        assert x > 1.0;
      }
    }
  }

  /** The clamp on the pass rate never bites; the clamp on the progress bites exactly when
      more results are counted than there are cases. */
  lemma ClampsBiteOnlyOnOverflow(c: Counters)
    requires NonNegative(c)
    ensures ComputeCounters(c).passRate == Ratio(c.passed, c.Recorded())
    ensures ComputeCounters(c).progress == Ratio(c.Recorded(), c.total) <==> c.total == 0 || c.Recorded() <= c.total
  {
    RatioWithin(c.passed, c.Recorded());
    RatioWithin(c.Recorded(), c.total);
  }

  /** What one re-recording adds to a counter. */
  function Delta(before: RunCaseResult, after: RunCaseResult, f: CounterField): int {
    (if FieldOf(after) == Some(f) then 1 else 0) - (if FieldOf(before) == Some(f) then 1 else 0)
  }

  ghost predicate Shifted(c: Counters, before: RunCaseResult, after: RunCaseResult, c': Counters) {
    c'.total == c.total && forall f: CounterField :: c'.Get(f) == c.Get(f) + Delta(before, after, f)
  }

  function Shift(c: Counters, before: RunCaseResult, after: RunCaseResult): (c': Counters)
    ensures Shifted(c, before, after, c')
  {
    Counters(c.total,
             c.passed + Delta(before, after, PassedCount), c.failed + Delta(before, after, FailedCount),
             c.blocked + Delta(before, after, BlockedCount), c.skipped + Delta(before, after, SkippedCount))
  }

  lemma ShiftedIsShift(c: Counters, before: RunCaseResult, after: RunCaseResult, c': Counters)
    ensures Shifted(c, before, after, c') <==> c' == Shift(c, before, after)
  {
    assert Shifted(c, before, after, c') ==>
        c'.Get(PassedCount) == Shift(c, before, after).Get(PassedCount)
        && c'.Get(FailedCount) == Shift(c, before, after).Get(FailedCount)
        && c'.Get(BlockedCount) == Shift(c, before, after).Get(BlockedCount)
        && c'.Get(SkippedCount) == Shift(c, before, after).Get(SkippedCount);
  }

  /** The delta object: each touched field with its summed increments and decrements. */
  method NetChange(before: RunCaseResult, after: RunCaseResult) returns (delta: map<CounterField, int>)
    ensures forall f :: (if f in delta then delta[f] else 0) == Delta(before, after, f)
  {
    var prevField, nextField := FieldOf(before), FieldOf(after);
    delta := map[];
    if prevField.Some? { delta := delta[prevField.value := -1]; }
    if nextField.Some? {
      delta := delta[nextField.value := (if nextField.value in delta then delta[nextField.value] else 0) + 1];
    }
  }

  /** The update built from the delta, one entry at a time in any order; zero entries are skipped. */
  method AddAll(before: Counters, delta: map<CounterField, int>) returns (c: Counters)
    ensures c.total == before.total
    ensures forall f :: c.Get(f) == before.Get(f) + if f in delta then delta[f] else 0
  {
    hide Counters.Get, Counters.Plus;
    c := before;
    var todo := delta.Keys;
    while todo != {}
      invariant todo <= delta.Keys && c.total == before.total
      invariant forall f :: c.Get(f) == before.Get(f) + if f in delta && f !in todo then delta[f] else 0
    {
      var field :| field in todo;
      todo := todo - {field};
      if delta[field] != 0 {
        PlusGet(c, field, delta[field]);
        c := c.Plus(field, delta[field]);
      }
    }
  }

  /** The ratios in terms of the counters: the counted share of all cases and the passed
      share of the counted ones, zero when there is nothing to divide by. */
  lemma RatiosAreShares(c: Counters)
    requires NonNegative(c)
    ensures var p := ComputeCounters(c);
            var counted := c.passed + c.failed + c.blocked + c.skipped;
            && p.counters == c
            && (c.total == 0 ==> p.progress == 0.0)
            && (c.total > 0 && counted <= c.total ==> p.progress * c.total as real == counted as real)
            && (c.total > 0 && counted > c.total ==> p.progress == 1.0)
            && (counted == 0 ==> p.passRate == 0.0)
            && (counted > 0 ==> p.passRate * counted as real == c.passed as real)
  {
    var counted := c.passed + c.failed + c.blocked + c.skipped;
    ShareIsQuotient(counted, c.total);
    ShareIsQuotient(c.passed, counted);
  }

  lemma ShareIsQuotient(part: int, whole: int)
    requires 0 <= part && 0 <= whole
    ensures var share := Clamp01(Ratio(part, whole));
            && (whole == 0 ==> share == 0.0)
            && (whole > 0 && part <= whole ==> share * whole as real == part as real)
            && (whole > 0 && part > whole ==> share == 1.0)
  {
    if whole > 0 {
      var x, w := Ratio(part, whole), whole as real;
      assert x * w == part as real;
      if part <= whole { assert 0.0 <= x <= 1.0; } else { assert x > 1.0; }
    }
  }
}
