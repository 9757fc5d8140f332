/** Cursor paging over the audit log: take one row more than asked to learn whether there
    is a next page, and continue after the last row shown.  The log is read newest first
    and grows at that end; its order is taken to be fixed and total. */
module AuditPaging {
  import opened Domain

  datatype LogRow = LogRow(id: Id, organizationId: Option<Id>, action: Id, actorId: Option<Id>, targetType: Id,
                           targetId: Option<Id>, createdAt: int)

  datatype LogFilter = LogFilter(organizationId: Id, action: Option<Id>, actorId: Option<Id>, targetType: Option<Id>,
                                 targetId: Option<Id>, from: Option<int>, to: Option<int>)

  predicate Passes(row: LogRow, f: LogFilter) {
    && row.organizationId == Some(f.organizationId)
    && (f.action.Some? ==> row.action == f.action.value)
    && (f.actorId.Some? ==> row.actorId == f.actorId)
    && (f.targetType.Some? ==> row.targetType == f.targetType.value)
    && (f.targetId.Some? ==> row.targetId == f.targetId)
    && (f.from.Some? ==> f.from.value <= row.createdAt)
    && (f.to.Some? ==> row.createdAt <= f.to.value)
  }

  function Filtered(log: seq<LogRow>, f: LogFilter): seq<LogRow> {
    if log == [] then []
    else if Passes(log[0], f) then [log[0]] + Filtered(log[1..], f)
    else Filtered(log[1..], f)
  }

  ghost predicate DistinctIds(log: seq<LogRow>) {
    forall i, j :: 0 <= i < j < |log| ==> log[i].id != log[j].id
  }

  /** The rows after the one with this id; none if there is no such row. */
  function AfterId(rows: seq<LogRow>, id: Id): seq<LogRow> {
    if rows == [] then []
    else if rows[0].id == id then rows[1..]
    else AfterId(rows[1..], id)
  }

  function Remaining(rows: seq<LogRow>, cursor: Option<Id>): seq<LogRow> {
    if cursor.None? then rows else AfterId(rows, cursor.value)
  }

  function Take(rows: seq<LogRow>, n: nat): seq<LogRow> {
    if |rows| <= n then rows else rows[..n]
  }

  datatype Page = Page(items: seq<LogRow>, nextCursor: Option<Id>)

  /** One call of the list: query take + 1 rows, show at most take of them. */
  function List(log: seq<LogRow>, f: LogFilter, take: nat, cursor: Option<Id>): Page
    requires take >= 1
  {
    var items := Take(Remaining(Filtered(log, f), cursor), take + 1);
    var hasMore := |items| > take;
    var page := if hasMore then items[..take] else items;
    Page(page, if hasMore then Some(page[|page| - 1].id) else None)
  }

  lemma {:induction false} FilteredConcat(a: seq<LogRow>, b: seq<LogRow>, f: LogFilter)
    ensures Filtered(a + b, f) == Filtered(a, f) + Filtered(b, f)
  {
    if a == [] {
      assert a + b == b;
    } else {
      assert (a + b)[1..] == a[1..] + b;
      FilteredConcat(a[1..], b, f);
    }
  }

  lemma {:induction false} FilteredKeepsIds(log: seq<LogRow>, f: LogFilter)
    ensures forall x :: x in Filtered(log, f) ==> x in log
    ensures DistinctIds(log) ==> DistinctIds(Filtered(log, f))
  {
    if log != [] {
      FilteredKeepsIds(log[1..], f);
      var rest := Filtered(log[1..], f);
      forall x | x in rest && DistinctIds(log) ensures x.id != log[0].id {
        var i :| 0 <= i < |log[1..]| && log[1..][i] == x;
        assert log[i + 1] == x;
      }
      assert forall i :: 0 <= i < |rest| ==> rest[i] in rest;
    }
  }

  lemma {:induction false} AfterIdAt(rows: seq<LogRow>, k: nat)
    requires DistinctIds(rows) && k < |rows|
    ensures AfterId(rows, rows[k].id) == rows[k + 1..]
  {
    if k > 0 {
      AfterIdAt(rows[1..], k - 1);
    }
  }

  /** Newer rows come in before the cursor and do not move what comes after it. */
  lemma {:induction false} AfterIdSkipsNewer(newer: seq<LogRow>, rows: seq<LogRow>, id: Id)
    requires forall x :: x in newer ==> x.id != id
    ensures AfterId(newer + rows, id) == AfterId(rows, id)
  {
    if newer == [] {
      assert newer + rows == rows;
    } else {
      assert (newer + rows)[1..] == newer[1..] + rows;
      AfterIdSkipsNewer(newer[1..], rows, id);
    }
  }

  function Newer(arrivals: seq<seq<LogRow>>): seq<LogRow> {
    if arrivals == [] then [] else arrivals[0]
  }

  function Later(arrivals: seq<seq<LogRow>>): seq<seq<LogRow>> {
    if arrivals == [] then [] else arrivals[1..]
  }

  /** All rows that will ever be in the log. */
  function WholeLog(log: seq<LogRow>, arrivals: seq<seq<LogRow>>): seq<LogRow>
    decreases |arrivals|
  {
    if arrivals == [] then log else WholeLog(arrivals[0] + log, arrivals[1..])
  }

  /** Following nextCursor until it is null; arrivals[i] is written between fetch i and the
      next one.  fuel only bounds the recursion. */
  function Follow(log: seq<LogRow>, f: LogFilter, take: nat, cursor: Option<Id>, arrivals: seq<seq<LogRow>>,
                  fuel: nat): seq<Page>
    requires take >= 1
    decreases fuel
  {
    var page := List(log, f, take, cursor);
    if page.nextCursor.None? || fuel == 0 then [page]
    else [page] + Follow(Newer(arrivals) + log, f, take, page.nextCursor, Later(arrivals), fuel - 1)
  }

  function ItemsOf(pages: seq<Page>): seq<LogRow> {
    if pages == [] then [] else pages[0].items + ItemsOf(pages[1..])
  }

  /** p pages are max(1, ceil(n / take)). */
  ghost predicate PageCount(p: nat, n: nat, take: nat) {
    if n == 0 then p == 1 else (p - 1) * take < n <= p * take
  }

  lemma {:induction false} WholeLogKeeps(log: seq<LogRow>, arrivals: seq<seq<LogRow>>)
    requires DistinctIds(WholeLog(log, arrivals))
    ensures DistinctIds(log)
    decreases |arrivals|
  {
    if arrivals != [] {
      WholeLogKeeps(arrivals[0] + log, arrivals[1..]);
      var whole := arrivals[0] + log;
      assert forall i :: 0 <= i < |log| ==> log[i] == whole[i + |arrivals[0]|];
    }
  }

  lemma WholeLogNext(log: seq<LogRow>, arrivals: seq<seq<LogRow>>)
    requires DistinctIds(WholeLog(log, arrivals))
    ensures DistinctIds(Newer(arrivals) + log)
    ensures WholeLog(Newer(arrivals) + log, Later(arrivals)) == WholeLog(log, arrivals)
  {
    assert arrivals == [] ==> Newer(arrivals) + log == log;
    WholeLogKeeps(Newer(arrivals) + log, Later(arrivals));
  }

  /** What is left after a page: the rows of the first fetch that follow it, whatever has
      been written since. */
  lemma NextRemaining(log: seq<LogRow>, f: LogFilter, take: nat, cursor: Option<Id>, newer: seq<LogRow>)
    requires take >= 1 && DistinctIds(newer + log)
    ensures var rest := Remaining(Filtered(log, f), cursor);
            var page := List(log, f, take, cursor);
            && page.items == Take(rest, take)
            && (page.nextCursor.Some? <==> |rest| > take)
            && (page.nextCursor.Some? ==> Remaining(Filtered(newer + log, f), page.nextCursor) == rest[take..])
            && Take(rest, take) == if |rest| > take then rest[..take] else rest
  {
    var rows := Filtered(log, f);
    var rest := Remaining(rows, cursor);
    var page := List(log, f, take, cursor);
    if |rest| > take {
      var last := rest[take - 1];
      assert page.nextCursor == Some(last.id);
      RemainingIsTail(rows, cursor);
      RemainingAfterNewer(log, f, |rows| - |rest| + take - 1, newer);
    }
  }

  lemma RemainingAfterNewer(log: seq<LogRow>, f: LogFilter, k: nat, newer: seq<LogRow>)
    requires DistinctIds(newer + log) && k < |Filtered(log, f)|
    ensures AfterId(Filtered(newer + log, f), Filtered(log, f)[k].id) == Filtered(log, f)[k + 1..]
  {
    var rows := Filtered(log, f);
    var last := rows[k];
    assert forall i :: 0 <= i < |log| ==> log[i] == (newer + log)[i + |newer|];
    FilteredKeepsIds(log, f);
    FilteredKeepsIds(newer, f);
    AfterIdAt(rows, k);
    FilteredConcat(newer, log, f);
    forall x | x in Filtered(newer, f) ensures x.id != last.id {
      assert last in log;
      var i :| 0 <= i < |newer| && newer[i] == x;
      var j :| 0 <= j < |log| && log[j] == last;
      assert (newer + log)[i] == x && (newer + log)[|newer| + j] == last;
    }
    AfterIdSkipsNewer(Filtered(newer, f), rows, last.id);
  }

  lemma {:induction false} RemainingIsTail(rows: seq<LogRow>, cursor: Option<Id>)
    ensures var rest := Remaining(rows, cursor);
            |rest| <= |rows| && rest == rows[|rows| - |rest|..]
  {
    if cursor.Some? && rows != [] && rows[0].id != cursor.value {
      RemainingIsTail(rows[1..], cursor);
    }
  }

  lemma {:induction false} FollowFrom(log: seq<LogRow>, f: LogFilter, take: nat, cursor: Option<Id>,
                                      arrivals: seq<seq<LogRow>>, fuel: nat)
    requires take >= 1 && DistinctIds(WholeLog(log, arrivals)) && fuel >= |Remaining(Filtered(log, f), cursor)|
    ensures ShowsAll(Follow(log, f, take, cursor, arrivals, fuel), Remaining(Filtered(log, f), cursor), take)
    decreases fuel
  {
    hide Filtered, Remaining, Take, List, DistinctIds, WholeLog, Newer, Later, ShowsAll;
    var rest := Remaining(Filtered(log, f), cursor);
    var page := List(log, f, take, cursor);
    WholeLogNext(log, arrivals);
    NextRemaining(log, f, take, cursor, Newer(arrivals));
    if page.nextCursor.Some? {
      var tail := Follow(Newer(arrivals) + log, f, take, page.nextCursor, Later(arrivals), fuel - 1);
      FollowFrom(Newer(arrivals) + log, f, take, page.nextCursor, Later(arrivals), fuel - 1);
      OneMorePage(page, tail, rest, take);
    } else {
      OnlyPage(page, rest, take);
    }
  }

  /** The pages show these rows in order, in the right number, and the last one says so. */
  ghost predicate ShowsAll(pages: seq<Page>, rows: seq<LogRow>, take: nat) {
    && pages != [] && ItemsOf(pages) == rows && PageCount(|pages|, |rows|, take)
    && pages[|pages| - 1].nextCursor.None?
  }

  lemma OneMorePage(page: Page, tail: seq<Page>, rows: seq<LogRow>, take: nat)
    requires 1 <= take < |rows| && page.items == rows[..take] && ShowsAll(tail, rows[take..], take)
    ensures ShowsAll([page] + tail, rows, take)
  {
    var pages := [page] + tail;
    assert pages[1..] == tail && pages[|pages| - 1] == tail[|tail| - 1];
    assert rows == rows[..take] + rows[take..];
    PageCountNext(|tail|, |rows|, take);
  }

  lemma OnlyPage(page: Page, rows: seq<LogRow>, take: nat)
    requires take >= 1 && |rows| <= take && page.items == rows && page.nextCursor.None?
    ensures ShowsAll([page], rows, take)
  {
    assert [page][1..] == [];
    PageCountOne(|rows|, take);
  }

  lemma PageCountNext(p: nat, n: nat, take: nat)
    requires take >= 1 && n > take && PageCount(p, n - take, take)
    ensures PageCount(p + 1, n, take)
  {
    assert p * take == (p - 1) * take + take;
    assert (p + 1) * take == p * take + take;
  }

  lemma PageCountOne(n: nat, take: nat)
    requires take >= 1 && n <= take
    ensures PageCount(1, n, take)
  {
  }

  /** Following the cursors shows exactly the filtered rows of the first fetch, in order and
      each once, however many newer rows are written meanwhile, and needs
      max(1, ceil(n / take)) fetches. */
  lemma PagingIsComplete(log: seq<LogRow>, f: LogFilter, take: nat, arrivals: seq<seq<LogRow>>)
    requires take >= 1 && DistinctIds(WholeLog(log, arrivals))
    ensures var rows := Filtered(log, f);
            var pages := Follow(log, f, take, None, arrivals, |rows|);
            && pages != [] && ItemsOf(pages) == rows
            && PageCount(|pages|, |rows|, take)
            && pages[|pages| - 1].nextCursor.None?
  {
    FollowFrom(log, f, take, None, arrivals, |Filtered(log, f)|);
  }

  /** The rows of a listing: those of the organisation that meet every filter that is set,
      bounds of the range included, as often as the log has them. */
  lemma {:induction false} FilteredExactly(log: seq<LogRow>, f: LogFilter, row: LogRow)
    ensures multiset(Filtered(log, f))[row] ==
            if row.organizationId == Some(f.organizationId)
               && (f.action == None || f.action == Some(row.action))
               && (f.actorId == None || f.actorId == row.actorId)
               && (f.targetType == None || f.targetType == Some(row.targetType))
               && (f.targetId == None || f.targetId == row.targetId)
               && (f.from.None? || row.createdAt >= f.from.value) && (f.to.None? || row.createdAt <= f.to.value)
            then multiset(log)[row] else 0
  {
    if log != [] {
      assert log == [log[0]] + log[1..];
      FilteredExactly(log[1..], f, row);
    }
  }
}
