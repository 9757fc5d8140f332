/** The tenant scope: every operation on a tenant model has its arguments rewritten before
    it reaches the database.  What the rewrite means is told over a row store: operations
    under one organisation can neither touch nor observe the rows of another. */
module TenantExtension {
  import opened Domain

  datatype Value = NullValue | IntValue(n: int) | IdValue(id: Id) | TextValue(text: string)

  /** Column names; the scope only distinguishes organizationId from all others. */
  datatype Field = OrganizationId | Column(name: string)

  type Row = map<Field, Value>

  datatype Model =
    | Membership | Invitation | TestSuite | TestCase | TestRun | TestRunCase | TestRunAssignee | BugReport
    | User | RefreshToken | Organization | AuditLog

  /** The models whose rows belong to an organisation. */
  const TENANT_MODELS: set<Model> :=
    {Membership, Invitation, TestSuite, TestCase, TestRun, TestRunCase, TestRunAssignee, BugReport}

  datatype Operation =
    | FindUnique | FindUniqueOrThrow | FindFirst | FindFirstOrThrow | FindMany | CountRows
    | Create | CreateMany | Upsert | Update | UpdateMany | Delete | DeleteMany

  datatype Cond = Equals(value: Value) | NotEquals(value: Value) | OneOf(values: seq<Value>)

  /** A filter: conditions on fields, an AND list, a NOT list of which none may hold, and
      possibly an OR list of which one must; all parts must hold. */
  datatype Where =
    | Filter(fields: map<Field, Cond>, allOf: seq<Where>, noneOf: seq<Where>)
    | FilterWithOr(fields: map<Field, Cond>, allOf: seq<Where>, noneOf: seq<Where>, anyOf: seq<Where>)

  datatype Data = NoData | One(row: Row) | Many(rows: seq<Row>)

  /** The argument object of an operation, with the keys the rewrite looks at; take limits
      what a findMany returns. */
  datatype Args = Args(where: Option<Where>, data: Data, create: Row, update: Row, take: Option<nat>)

  // ----- the rewrite -----

  function ScopedWhere(w: Option<Where>, org: Id): Where {
    var base := if w.Some? then w.value else Filter(map[], [], []);
    base.(fields := base.fields[OrganizationId := Equals(IdValue(org))])
  }

  function ScopedRow(row: Row, org: Id): Row {
    row[OrganizationId := IdValue(org)]
  }

  function ScopedRows(rows: seq<Row>, org: Id): (r: seq<Row>)
    ensures |r| == |rows| && forall i :: 0 <= i < |rows| ==> r[i] == ScopedRow(rows[i], org)
  {
    seq(|rows|, i requires 0 <= i < |rows| => ScopedRow(rows[i], org))
  }

  function RowOf(data: Data): Row {
    match data case One(row) => row case _ => map[]
  }

  function RowsOf(data: Data): seq<Row> {
    match data case Many(rows) => rows case One(row) => [row] case NoData => [map[]]
  }

  function ApplyTenantScope(operation: Operation, args: Args, org: Id): Args {
    match operation
    case Create => args.(data := One(ScopedRow(RowOf(args.data), org)))
    case CreateMany => args.(data := Many(ScopedRows(RowsOf(args.data), org)))
    case Upsert => args.(where := Some(ScopedWhere(args.where, org)), create := ScopedRow(args.create, org))
    case _ => args.(where := Some(ScopedWhere(args.where, org)))
  }

  // ----- the database -----

  function FieldOf(row: Row, field: Field): Value {
    if field in row then row[field] else NullValue
  }

  predicate Holds(c: Cond, v: Value) {
    match c
    case Equals(x) => v == x
    case NotEquals(x) => v != x
    case OneOf(xs) => v in xs
  }

  predicate Matches(row: Row, w: Where)
    decreases w
  {
    && (forall f | f in w.fields :: Holds(w.fields[f], FieldOf(row, f)))
    && (forall i | 0 <= i < |w.allOf| :: Matches(row, w.allOf[i]))
    && (forall i | 0 <= i < |w.noneOf| :: !Matches(row, w.noneOf[i]))
    && (w.FilterWithOr? ==> exists i | 0 <= i < |w.anyOf| :: Matches(row, w.anyOf[i]))
  }

  predicate MatchesOption(row: Row, w: Option<Where>) {
    w.Some? ==> Matches(row, w.value)
  }

  function Select(rows: seq<Row>, w: Option<Where>): seq<Row> {
    if rows == [] then []
    else if MatchesOption(rows[0], w) then [rows[0]] + Select(rows[1..], w)
    else Select(rows[1..], w)
  }

  function Patch(row: Row, data: Row): Row {
    row + data
  }

  function PatchAll(rows: seq<Row>, w: Option<Where>, data: Row): seq<Row> {
    if rows == [] then []
    else [if MatchesOption(rows[0], w) then Patch(rows[0], data) else rows[0]] + PatchAll(rows[1..], w, data)
  }

  function PatchFirst(rows: seq<Row>, w: Option<Where>, data: Row): seq<Row> {
    if rows == [] then []
    else if MatchesOption(rows[0], w) then [Patch(rows[0], data)] + rows[1..]
    else [rows[0]] + PatchFirst(rows[1..], w, data)
  }

  function RemoveAll(rows: seq<Row>, w: Option<Where>): seq<Row> {
    if rows == [] then []
    else if MatchesOption(rows[0], w) then RemoveAll(rows[1..], w)
    else [rows[0]] + RemoveAll(rows[1..], w)
  }

  function RemoveFirst(rows: seq<Row>, w: Option<Where>): seq<Row> {
    if rows == [] then []
    else if MatchesOption(rows[0], w) then rows[1..]
    else [rows[0]] + RemoveFirst(rows[1..], w)
  }

  datatype Response = Rows(rows: seq<Row>) | Count(n: nat) | Missing

  function Limit(rows: seq<Row>, take: Option<nat>): seq<Row> {
    if take.Some? && take.value < |rows| then rows[..take.value] else rows
  }

  /** One operation on one table.  Inserted rows get their ids from the caller's supply,
      which is part of the data; a row addressed uniquely is the first that matches. */
  function Execute(rows: seq<Row>, operation: Operation, args: Args): (seq<Row>, Response) {
    var found := Select(rows, args.where);
    match operation
    case Create => (rows + [RowOf(args.data)], Rows([RowOf(args.data)]))
    case CreateMany => (rows + RowsOf(args.data), Count(|RowsOf(args.data)|))
    case Upsert =>
      if found == [] then (rows + [args.create], Rows([args.create]))
      else (PatchFirst(rows, args.where, args.update), Rows([Patch(found[0], args.update)]))
    case Update =>
      if found == [] then (rows, Missing)
      else (PatchFirst(rows, args.where, RowOf(args.data)), Rows([Patch(found[0], RowOf(args.data))]))
    case UpdateMany => (PatchAll(rows, args.where, RowOf(args.data)), Count(|found|))
    case Delete => if found == [] then (rows, Missing) else (RemoveFirst(rows, args.where), Rows([found[0]]))
    case DeleteMany => (RemoveAll(rows, args.where), Count(|found|))
    case CountRows => (rows, Count(|found|))
    case FindMany => (rows, Rows(Limit(found, args.take)))
    case FindUniqueOrThrow => (rows, if found == [] then Missing else Rows([found[0]]))
    case FindFirstOrThrow => (rows, if found == [] then Missing else Rows([found[0]]))
    case _ => (rows, Rows(Limit(found, Some(1))))
  }

  type Store = map<Model, seq<Row>>

  function Table(store: Store, model: Model): seq<Row> {
    if model in store then store[model] else []
  }

  datatype Query = Query(model: Model, operation: Operation, args: Args)

  /** The $allOperations hook in front of the database. */
  function RunQuery(store: Store, context: Option<Id>, q: Query): (Store, Result<Response>) {
    if q.model !in TENANT_MODELS then
      var (rows, response) := Execute(Table(store, q.model), q.operation, q.args);
      (store[q.model := rows], Ok(response))
    else if context.None? then (store, Err(TenantContextMissing))
    else
      var args := ApplyTenantScope(q.operation, q.args, context.value);
      var (rows, response) := Execute(Table(store, q.model), q.operation, args);
      (store[q.model := rows], Ok(response))
  }

  function RunQueries(store: Store, context: Option<Id>, queries: seq<Query>): (Store, seq<Result<Response>>)
    decreases |queries|
  {
    if queries == [] then (store, [])
    else
      var (next, response) := RunQuery(store, context, queries[0]);
      var (last, responses) := RunQueries(next, context, queries[1..]);
      (last, [response] + responses)
  }

  // ----- an organisation's own rows and everybody else's -----

  predicate Owns(org: Id, row: Row) {
    FieldOf(row, OrganizationId) == IdValue(org)
  }

  function Mine(rows: seq<Row>, org: Id): seq<Row> {
    if rows == [] then []
    else if Owns(org, rows[0]) then [rows[0]] + Mine(rows[1..], org)
    else Mine(rows[1..], org)
  }

  function Others(rows: seq<Row>, org: Id): seq<Row> {
    if rows == [] then []
    else if Owns(org, rows[0]) then Others(rows[1..], org)
    else [rows[0]] + Others(rows[1..], org)
  }

  /** A filter that only rows of org can pass. */
  ghost predicate Confined(w: Option<Where>, org: Id) {
    forall row :: MatchesOption(row, w) ==> Owns(org, row)
  }

  lemma ScopedWhereIsConfined(w: Option<Where>, org: Id)
    ensures Confined(Some(ScopedWhere(w, org)), org)
  {
    forall row | Matches(row, ScopedWhere(w, org)) ensures Owns(org, row) {
      assert OrganizationId in ScopedWhere(w, org).fields;
    }
  }

  /** On the organisation's own rows the rewrite takes nothing away from a filter that does
      not mention organizationId itself. */
  lemma ScopedWhereKeepsOwnMatches(w: Where, org: Id, row: Row)
    requires Owns(org, row) && OrganizationId !in w.fields
    ensures Matches(row, ScopedWhere(Some(w), org)) <==> Matches(row, w)
  {
    var s := ScopedWhere(Some(w), org);
    assert forall f :: f in w.fields ==> f in s.fields && s.fields[f] == w.fields[f];
    assert forall f :: f in s.fields ==> f == OrganizationId || f in w.fields;
  }

  lemma {:induction false} SelectSplits(rows: seq<Row>, w: Option<Where>, org: Id)
    requires Confined(w, org)
    ensures Select(rows, w) == Select(Mine(rows, org), w)
  {
    if rows != [] {
      SelectSplits(rows[1..], w, org);
    }
  }

  lemma {:induction false} PatchAllSplits(rows: seq<Row>, w: Option<Where>, data: Row, org: Id)
    requires Confined(w, org) && (OrganizationId in data ==> data[OrganizationId] == IdValue(org))
    ensures Mine(PatchAll(rows, w, data), org) == PatchAll(Mine(rows, org), w, data)
    ensures Others(PatchAll(rows, w, data), org) == Others(rows, org)
  {
    if rows != [] {
      PatchAllSplits(rows[1..], w, data, org);
      assert Owns(org, rows[0]) ==> Owns(org, Patch(rows[0], data));
    }
  }

  lemma {:induction false} PatchFirstSplits(rows: seq<Row>, w: Option<Where>, data: Row, org: Id)
    requires Confined(w, org) && (OrganizationId in data ==> data[OrganizationId] == IdValue(org))
    ensures Mine(PatchFirst(rows, w, data), org) == PatchFirst(Mine(rows, org), w, data)
    ensures Others(PatchFirst(rows, w, data), org) == Others(rows, org)
  {
    if rows != [] {
      PatchFirstSplits(rows[1..], w, data, org);
      assert Owns(org, rows[0]) ==> Owns(org, Patch(rows[0], data));
    }
  }

  lemma {:induction false} RemoveAllSplits(rows: seq<Row>, w: Option<Where>, org: Id)
    requires Confined(w, org)
    ensures Mine(RemoveAll(rows, w), org) == RemoveAll(Mine(rows, org), w)
    ensures Others(RemoveAll(rows, w), org) == Others(rows, org)
  {
    if rows != [] {
      RemoveAllSplits(rows[1..], w, org);
    }
  }

  lemma {:induction false} RemoveFirstSplits(rows: seq<Row>, w: Option<Where>, org: Id)
    requires Confined(w, org)
    ensures Mine(RemoveFirst(rows, w), org) == RemoveFirst(Mine(rows, org), w)
    ensures Others(RemoveFirst(rows, w), org) == Others(rows, org)
  {
    if rows != [] {
      RemoveFirstSplits(rows[1..], w, org);
    }
  }

  lemma {:induction false} OwnRowsSplit(rows: seq<Row>, org: Id)
    requires forall i :: 0 <= i < |rows| ==> Owns(org, rows[i])
    ensures Mine(rows, org) == rows && Others(rows, org) == []
  {
    hide Owns;
    if rows != [] {
      assert Owns(org, rows[0]);
      OwnRowsSplit(rows[1..], org);
      assert rows == [rows[0]] + rows[1..];
    }
  }

  lemma SplitFirst(row: Row, rest: seq<Row>, org: Id)
    ensures Mine([row] + rest, org) == if Owns(org, row) then [row] + Mine(rest, org) else Mine(rest, org)
    ensures Others([row] + rest, org) == if Owns(org, row) then Others(rest, org) else [row] + Others(rest, org)
  {
    assert ([row] + rest)[1..] == rest;
  }

  lemma ConcatHead(row: Row, rows: seq<Row>, more: seq<Row>)
    ensures ([row] + rows) + more == [row] + (rows + more)
  {
  }

  lemma {:induction false} SplitAppend(rows: seq<Row>, more: seq<Row>, org: Id)
    requires forall i :: 0 <= i < |more| ==> Owns(org, more[i])
    ensures Mine(rows + more, org) == Mine(rows, org) + more
    ensures Others(rows + more, org) == Others(rows, org)
    decreases |rows|
  {
    if rows == [] {
      assert rows + more == more && [] + more == more;
      OwnRowsSplit(more, org);
      OwnRowsSplit(rows, org);
    } else {
      var row, rest := rows[0], rows[1..];
      assert rows == [row] + rest;
      SplitAppend(rest, more, org);
      hide Owns, Mine, Others;
      SplitFirst(row, rest, org);
      SplitFirst(row, rest + more, org);
      ConcatHead(row, rest, more);
      ConcatHead(row, Mine(rest, org), more);
    }
  }

  /** The data of an update or of the update part of an upsert names no organisation; the
      rewrite overwrites the organisation of inserted data only. */
  predicate NoOrgInUpdates(q: Query) {
    && (q.operation == Update || q.operation == UpdateMany ==> OrganizationId !in RowOf(q.args.data))
    && (q.operation == Upsert ==> OrganizationId !in q.args.update)
  }

  lemma ScopedRowsAreOwn(args: Args, org: Id)
    ensures Owns(org, ScopedRow(RowOf(args.data), org)) && Owns(org, ScopedRow(args.create, org))
    ensures var rows := ScopedRows(RowsOf(args.data), org); forall i :: 0 <= i < |rows| ==> Owns(org, rows[i])
  {
  }

  /** A scoped operation acts on the organisation's rows as if the table held no others,
      and leaves the others as they are. */
  lemma UpsertSplits(rows: seq<Row>, args: Args, org: Id)
    requires Confined(args.where, org) && OrganizationId !in args.update && Owns(org, args.create)
    ensures var (after, response) := Execute(rows, Upsert, args);
            && Others(after, org) == Others(rows, org)
            && Mine(after, org) == Execute(Mine(rows, org), Upsert, args).0
            && response == Execute(Mine(rows, org), Upsert, args).1
  {
    SelectSplits(rows, args.where, org);
    PatchFirstSplits(rows, args.where, args.update, org);
    SplitAppend(rows, [args.create], org);
    hide Confined, Matches, Owns, Mine, Others, Select, PatchFirst;
  }

  lemma ScopedExecuteSplits(rows: seq<Row>, q: Query, org: Id)
    requires NoOrgInUpdates(q)
    ensures var args := ApplyTenantScope(q.operation, q.args, org);
            var (after, response) := Execute(rows, q.operation, args);
            && Others(after, org) == Others(rows, org)
            && Mine(after, org) == Execute(Mine(rows, org), q.operation, args).0
            && response == Execute(Mine(rows, org), q.operation, args).1
  {
    var args := ApplyTenantScope(q.operation, q.args, org);
    ScopedWhereIsConfined(q.args.where, org);
    ScopedRowsAreOwn(q.args, org);
    hide Confined, Matches, Owns, FieldOf, ScopedRow, ScopedRows, ScopedWhere;
    hide Mine, Others, Select, PatchAll, PatchFirst, RemoveAll, RemoveFirst;
    match q.operation
    case Create => SplitAppend(rows, [RowOf(args.data)], org);
    case CreateMany => SplitAppend(rows, RowsOf(args.data), org);
    case Upsert => UpsertSplits(rows, args, org);
    case Update =>
      SelectSplits(rows, args.where, org);
      PatchFirstSplits(rows, args.where, RowOf(args.data), org);
    case UpdateMany =>
      SelectSplits(rows, args.where, org);
      PatchAllSplits(rows, args.where, RowOf(args.data), org);
    case Delete =>
      SelectSplits(rows, args.where, org);
      RemoveFirstSplits(rows, args.where, org);
    case DeleteMany =>
      SelectSplits(rows, args.where, org);
      RemoveAllSplits(rows, args.where, org);
    case _ => SelectSplits(rows, args.where, org);
  }

  ghost predicate AgreeOn(s: Store, t: Store, org: Id) {
    forall model :: model in TENANT_MODELS ==> Mine(Table(s, model), org) == Mine(Table(t, model), org)
  }

  ghost predicate SameOthers(s: Store, t: Store, org: Id) {
    forall model :: model in TENANT_MODELS ==> Others(Table(s, model), org) == Others(Table(t, model), org)
  }

  /** A query works on its model's table and on no other. */
  lemma QueryStaysInTable(s: Store, org: Id, q: Query)
    requires q.model in TENANT_MODELS
    ensures var (s', r) := RunQuery(s, Some(org), q);
            var args := ApplyTenantScope(q.operation, q.args, org);
            var (after, response) := Execute(Table(s, q.model), q.operation, args);
            && Table(s', q.model) == after && r == Ok(response)
            && forall model :: model != q.model ==> Table(s', model) == Table(s, model)
  {
    hide Execute, ApplyTenantScope;
  }

  lemma QueryIsIsolated(s: Store, t: Store, org: Id, q: Query)
    requires q.model in TENANT_MODELS && NoOrgInUpdates(q) && AgreeOn(s, t, org)
    ensures var (s', r) := RunQuery(s, Some(org), q);
            var (t', u) := RunQuery(t, Some(org), q);
            r == u && AgreeOn(s', t', org) && SameOthers(s, s', org)
  {
    ScopedExecuteSplits(Table(s, q.model), q, org);
    ScopedExecuteSplits(Table(t, q.model), q, org);
    QueryStaysInTable(s, org, q);
    QueryStaysInTable(t, org, q);
    hide Mine, Others, Execute, ApplyTenantScope, RunQuery, Table, NoOrgInUpdates;
    var (s', r) := RunQuery(s, Some(org), q);
    var (t', u) := RunQuery(t, Some(org), q);
    forall model | model in TENANT_MODELS
      ensures Mine(Table(s', model), org) == Mine(Table(t', model), org)
      ensures Others(Table(s, model), org) == Others(Table(s', model), org)
    {
      assert Mine(Table(s, q.model), org) == Mine(Table(t, q.model), org);
      if model != q.model { assert Mine(Table(s, model), org) == Mine(Table(t, model), org); }
    }
  }

  /** Any sequence of operations under one organisation: no other organisation's row is
      changed, and two databases that hold the same rows of this organisation give the same
      answers and still hold the same rows of it afterwards. */
  lemma {:induction false} TenantNoninterference(s: Store, t: Store, org: Id, queries: seq<Query>)
    requires forall i :: 0 <= i < |queries| ==> queries[i].model in TENANT_MODELS && NoOrgInUpdates(queries[i])
    requires AgreeOn(s, t, org)
    ensures var (s', rs) := RunQueries(s, Some(org), queries);
            var (t', ts) := RunQueries(t, Some(org), queries);
            rs == ts && AgreeOn(s', t', org) && SameOthers(s, s', org)
    decreases |queries|
  {
    if queries != [] {
      hide RunQuery, Mine, Others, NoOrgInUpdates;
      QueryIsIsolated(s, t, org, queries[0]);
      TenantNoninterference(RunQuery(s, Some(org), queries[0]).0, RunQuery(t, Some(org), queries[0]).0, org,
                            queries[1..]);
    }
  }

  /** Without an organisation in the context a tenant model is not reached at all. */
  lemma {:induction false} NoContextNoAccess(s: Store, queries: seq<Query>)
    requires forall i :: 0 <= i < |queries| ==> queries[i].model in TENANT_MODELS
    ensures RunQueries(s, None, queries).0 == s
    ensures |RunQueries(s, None, queries).1| == |queries|
    ensures forall i :: 0 <= i < |queries| ==> RunQueries(s, None, queries).1[i] == Err(TenantContextMissing)
    decreases |queries|
  {
    if queries != [] {
      NoContextNoAccess(s, queries[1..]);
      assert RunQuery(s, None, queries[0]) == (s, Err(TenantContextMissing));
    }
  }

  // ----- what the rewrite leaves to the caller -----

  /** Data that would put a row of org into another organisation. */
  predicate NamesOther(data: Row, org: Id) {
    OrganizationId in data && data[OrganizationId] != IdValue(org)
  }

  lemma {:induction false} MovedRowsLeave(rows: seq<Row>, w: Option<Where>, data: Row, org: Id)
    requires Confined(w, org) && NamesOther(data, org)
    ensures |Others(PatchAll(rows, w, data), org)| == |Others(rows, org)| + |Select(rows, w)|
  {
    if rows != [] { MovedRowsLeave(rows[1..], w, data, org); }
  }

  lemma {:induction false} MovedRowLeaves(rows: seq<Row>, w: Option<Where>, data: Row, org: Id)
    requires Confined(w, org) && NamesOther(data, org) && Select(rows, w) != []
    ensures |Others(PatchFirst(rows, w, data), org)| == |Others(rows, org)| + 1
  {
    if !MatchesOption(rows[0], w) { MovedRowLeaves(rows[1..], w, data, org); }
  }

  lemma {:induction false} UnmatchedRowsStay(rows: seq<Row>, w: Option<Where>, data: Row)
    requires Select(rows, w) == []
    ensures PatchAll(rows, w, data) == rows
  {
    if rows != [] { UnmatchedRowsStay(rows[1..], w, data); }
  }

  /** The rewrite does not look at the data of an updateMany: the rows of others stay as
      they are exactly when the data names no other organisation or nothing matches. */
  lemma UpdateManyConfinedIff(rows: seq<Row>, args: Args, org: Id)
    ensures var scoped := ApplyTenantScope(UpdateMany, args, org);
            Others(Execute(rows, UpdateMany, scoped).0, org) == Others(rows, org) <==>
              !NamesOther(RowOf(args.data), org) || Select(rows, scoped.where) == []
  {
    var scoped := ApplyTenantScope(UpdateMany, args, org);
    var data := RowOf(args.data);
    ScopedWhereIsConfined(args.where, org);
    if NamesOther(data, org) {
      MovedRowsLeave(rows, scoped.where, data, org);
      if Select(rows, scoped.where) == [] { UnmatchedRowsStay(rows, scoped.where, data); }
    } else {
      PatchAllSplits(rows, scoped.where, data, org);
    }
  }

  lemma PatchFirstConfinedIff(rows: seq<Row>, w: Option<Where>, data: Row, org: Id)
    requires Confined(w, org) && Select(rows, w) != []
    ensures Others(PatchFirst(rows, w, data), org) == Others(rows, org) <==> !NamesOther(data, org)
  {
    if NamesOther(data, org) {
      MovedRowLeaves(rows, w, data, org);
    } else {
      PatchFirstSplits(rows, w, data, org);
    }
  }

  /** Nor at the data of an update of one row. */
  lemma UpdateConfinedIff(rows: seq<Row>, args: Args, org: Id)
    ensures var scoped := ApplyTenantScope(Update, args, org);
            Others(Execute(rows, Update, scoped).0, org) == Others(rows, org) <==>
              !NamesOther(RowOf(args.data), org) || Select(rows, scoped.where) == []
  {
    var scoped := ApplyTenantScope(Update, args, org);
    ScopedWhereIsConfined(args.where, org);
    if Select(rows, scoped.where) != [] { PatchFirstConfinedIff(rows, scoped.where, RowOf(args.data), org); }
  }

  /** Nor at the update part of an upsert; its create part is overwritten and never reaches
      another organisation. */
  lemma UpsertConfinedIff(rows: seq<Row>, args: Args, org: Id)
    ensures var scoped := ApplyTenantScope(Upsert, args, org);
            Others(Execute(rows, Upsert, scoped).0, org) == Others(rows, org) <==>
              !NamesOther(args.update, org) || Select(rows, scoped.where) == []
  {
    var scoped := ApplyTenantScope(Upsert, args, org);
    ScopedWhereIsConfined(args.where, org);
    if Select(rows, scoped.where) == [] {
      SplitAppend(rows, [scoped.create], org);
    } else {
      PatchFirstConfinedIff(rows, scoped.where, args.update, org);
    }
  }

  /** Every operation: a scoped call leaves the rows of others alone if and only if it
      carries no update data that names another organisation, or matches nothing. */
  lemma ScopedConfinedIff(rows: seq<Row>, q: Query, org: Id)
    ensures var scoped := ApplyTenantScope(q.operation, q.args, org);
            Others(Execute(rows, q.operation, scoped).0, org) == Others(rows, org) <==>
              match q.operation
              case Update => !NamesOther(RowOf(q.args.data), org) || Select(rows, scoped.where) == []
              case UpdateMany => !NamesOther(RowOf(q.args.data), org) || Select(rows, scoped.where) == []
              case Upsert => !NamesOther(q.args.update, org) || Select(rows, scoped.where) == []
              case _ => true
  {
    match q.operation
    case Update => UpdateConfinedIff(rows, q.args, org);
    case UpdateMany => UpdateManyConfinedIff(rows, q.args, org);
    case Upsert => UpsertConfinedIff(rows, q.args, org);
    case _ => ScopedExecuteSplits(rows, q, org);
  }

  lemma OneRowUpdated(row: Row, args: Args)
    requires MatchesOption(row, args.where)
    ensures Execute([row], Update, args) == ([Patch(row, RowOf(args.data))], Rows([Patch(row, RowOf(args.data))]))
  {
    assert [row][1..] == [];
    assert Select([row], args.where) == [row] + [] == [row];
    assert PatchFirst([row], args.where, RowOf(args.data)) == [Patch(row, RowOf(args.data))] + [];
    assert [Patch(row, RowOf(args.data))] + [] == [Patch(row, RowOf(args.data))];
  }

  lemma MineOfOne(row: Row, org: Id)
    ensures Mine([row], org) == if Owns(org, row) then [row] else []
  {
    assert Mine([row][1..], org) == [];
  }

  function OneRow(org: Id, id: Id): Row {
    map[OrganizationId := IdValue(org), Column("id") := IdValue(id)]
  }

  /** An update by id whose data names an organisation. */
  function HandOver(id: Id, other: Id): Args {
    Args(Some(Filter(map[Column("id") := Equals(IdValue(id))], [], [])), One(map[OrganizationId := IdValue(other)]),
         map[], map[], None)
  }

  lemma OwnerOfOneRow(org: Id, id: Id, x: Id)
    ensures Owns(x, OneRow(org, id)) <==> x == org
  {
  }

  lemma HandOverTakes(org: Id, other: Id, id: Id)
    ensures var scoped := ApplyTenantScope(Update, HandOver(id, other), org);
            && MatchesOption(OneRow(org, id), scoped.where)
            && Patch(OneRow(org, id), RowOf(scoped.data)) == OneRow(other, id)
  {
    hide Mine, Others, Execute, Select;
    assert FieldOf(OneRow(org, id), OrganizationId) == IdValue(org);
    assert FieldOf(OneRow(org, id), Column("id")) == IdValue(id);
  }

  /** A scoped update that names another organisation succeeds and hands the row over: it
      is then the other organisation's and no longer the caller's. */
  lemma UpdateHandsRowOver(org: Id, other: Id, id: Id)
    requires org != other
    ensures var (after, response) :=
              Execute([OneRow(org, id)], Update, ApplyTenantScope(Update, HandOver(id, other), org));
            response == Rows([OneRow(other, id)]) && Mine(after, org) == [] && Mine(after, other) == [OneRow(other, id)]
  {
    hide Execute, Mine, Matches, Patch, OneRow, ApplyTenantScope, Owns, HandOver;
    HandOverTakes(org, other, id);
    OneRowUpdated(OneRow(org, id), ApplyTenantScope(Update, HandOver(id, other), org));
    OwnerOfOneRow(other, id, org);
    OwnerOfOneRow(other, id, other);
    MineOfOne(OneRow(other, id), org);
    MineOfOne(OneRow(other, id), other);
  }

  // ----- what the rewrite keeps -----

  /** The stored row belongs to org and is otherwise the caller's, column by column. */
  ghost predicate OnlyOwnerSet(row: Row, given: Row, org: Id) {
    && OrganizationId in row && row[OrganizationId] == IdValue(org)
    && forall f :: f != OrganizationId ==> (f in row <==> f in given) && (f in row ==> row[f] == given[f])
  }

  /** Inserted data keeps every column of the caller but the organisation, whichever way it
      is inserted; filters are rewritten where rows are looked up; and everything else the
      caller passed, update data included, arrives as given. */
  lemma RewriteKeepsTheRest(operation: Operation, args: Args, org: Id)
    ensures var scoped := ApplyTenantScope(operation, args, org);
            && scoped.take == args.take && scoped.update == args.update
            && (operation == Create && args.data.One? ==>
                  scoped.data.One? && OnlyOwnerSet(scoped.data.row, args.data.row, org))
            && (operation == CreateMany && args.data.Many? ==>
                  && scoped.data.Many? && |scoped.data.rows| == |args.data.rows|
                  && forall i :: 0 <= i < |args.data.rows| ==>
                       OnlyOwnerSet(scoped.data.rows[i], args.data.rows[i], org))
            && (operation == CreateMany && args.data.One? ==>
                  scoped.data.Many? && |scoped.data.rows| == 1 && OnlyOwnerSet(scoped.data.rows[0], args.data.row, org))
            && (operation == Upsert ==> OnlyOwnerSet(scoped.create, args.create, org))
            && (operation != Upsert ==> scoped.create == args.create)
            && (operation != Create && operation != CreateMany ==> scoped.data == args.data && scoped.where.Some?)
            && (operation == Create || operation == CreateMany ==> scoped.where == args.where)
  {
  }

  /** The rewritten filter asks for the organisation and otherwise for what the caller asked. */
  lemma FilterKeepsTheRest(operation: Operation, args: Args, org: Id)
    requires operation != Create && operation != CreateMany
    ensures var w := ApplyTenantScope(operation, args, org).where.value;
            && OrganizationId in w.fields && w.fields[OrganizationId] == Equals(IdValue(org))
            && (args.where.None? ==> w.fields.Keys == {OrganizationId} && w.Filter? && w.allOf == [] && w.noneOf == [])
            && (args.where.Some? ==>
                  var given := args.where.value;
                  && (forall f :: f != OrganizationId ==>
                        (f in w.fields <==> f in given.fields) && (f in w.fields ==> w.fields[f] == given.fields[f]))
                  && w.allOf == given.allOf && w.noneOf == given.noneOf && w.Filter? == given.Filter?
                  && (w.FilterWithOr? ==> w.anyOf == given.anyOf))
  {
  }

  /** Which models are scoped; the others reach the database with the caller's arguments,
      context or not. */
  lemma OtherModelsPassThrough(store: Store, context: Option<Id>, q: Query)
    ensures q.model in TENANT_MODELS <==> q.model !in {User, RefreshToken, Organization, AuditLog}
    ensures q.model !in TENANT_MODELS ==>
              var (after, r) := RunQuery(store, context, q);
              var (rows, response) := Execute(Table(store, q.model), q.operation, q.args);
              after == store[q.model := rows] && r == Ok(response)
  {
    hide Execute;
    match q.model {
      case Membership => case Invitation => case TestSuite => case TestCase => case TestRun => case TestRunCase =>
      case TestRunAssignee => case BugReport => case User => case RefreshToken => case Organization => case AuditLog =>
    }
  }

  // ----- what an operation does to the rows -----

  lemma {:induction false} SelectExactly(rows: seq<Row>, w: Option<Where>, row: Row)
    ensures multiset(Select(rows, w))[row] == if MatchesOption(row, w) then multiset(rows)[row] else 0
  {
    if rows != [] {
      assert rows == [rows[0]] + rows[1..];
      SelectExactly(rows[1..], w, row);
      hide Matches;
    }
  }

  lemma {:induction false} RemoveAllExactly(rows: seq<Row>, w: Option<Where>, row: Row)
    ensures multiset(RemoveAll(rows, w))[row] == if MatchesOption(row, w) then 0 else multiset(rows)[row]
  {
    if rows != [] {
      assert rows == [rows[0]] + rows[1..];
      RemoveAllExactly(rows[1..], w, row);
      hide Matches;
    }
  }

  /** Rows that are shown, and rows that are left, keep their order. */
  lemma {:induction false} RowsKeepOrder(before: seq<Row>, after: seq<Row>, w: Option<Where>)
    ensures Select(before + after, w) == Select(before, w) + Select(after, w)
    ensures RemoveAll(before + after, w) == RemoveAll(before, w) + RemoveAll(after, w)
  {
    hide Matches;
    if before == [] {
      assert before + after == after;
    } else {
      assert (before + after)[1..] == before[1..] + after;
      RowsKeepOrder(before[1..], after, w);
    }
  }

  lemma {:induction false} PatchAllAt(rows: seq<Row>, w: Option<Where>, data: Row, i: nat)
    requires i < |rows|
    ensures |PatchAll(rows, w, data)| == |rows|
    ensures PatchAll(rows, w, data)[i] == if MatchesOption(rows[i], w) then rows[i] + data else rows[i]
    decreases |rows|
  {
    hide Matches;
    if i > 0 {
      PatchAllAt(rows[1..], w, data, i - 1);
    } else if |rows| > 1 {
      PatchAllAt(rows[1..], w, data, 0);
    }
  }

  /** k is the first row that the filter lets pass. */
  ghost predicate FirstMatch(rows: seq<Row>, w: Option<Where>, k: nat) {
    k < |rows| && MatchesOption(rows[k], w) && forall i :: 0 <= i < k ==> !MatchesOption(rows[i], w)
  }

  lemma TailMatch(rows: seq<Row>, w: Option<Where>, k: nat)
    requires FirstMatch(rows, w, k) && k > 0
    ensures FirstMatch(rows[1..], w, k - 1) && !MatchesOption(rows[0], w) && rows[1..][k - 1] == rows[k]
  {
    hide Matches, MatchesOption;
    assert forall i :: 0 <= i < k - 1 ==> rows[1..][i] == rows[i + 1];
  }

  lemma {:induction false} SelectAtFirst(rows: seq<Row>, w: Option<Where>, k: nat)
    requires FirstMatch(rows, w, k)
    ensures Select(rows, w) != [] && Select(rows, w)[0] == rows[k]
    decreases k
  {
    if k > 0 {
      TailMatch(rows, w, k);
      SelectAtFirst(rows[1..], w, k - 1);
    }
  }

  lemma {:induction false} PatchAtFirst(rows: seq<Row>, w: Option<Where>, data: Row, k: nat)
    requires FirstMatch(rows, w, k)
    ensures PatchFirst(rows, w, data) == rows[k := rows[k] + data]
    decreases k
  {
    if k > 0 {
      TailMatch(rows, w, k);
      PatchAtFirst(rows[1..], w, data, k - 1);
      hide FirstMatch, MatchesOption;
      assert rows[k := rows[k] + data] == [rows[0]] + rows[1..][k - 1 := rows[k] + data];
    }
  }

  lemma {:induction false} RemoveAtFirst(rows: seq<Row>, w: Option<Where>, k: nat)
    requires FirstMatch(rows, w, k)
    ensures RemoveFirst(rows, w) == rows[..k] + rows[k + 1..]
    decreases k
  {
    if k > 0 {
      TailMatch(rows, w, k);
      RemoveAtFirst(rows[1..], w, k - 1);
      hide FirstMatch, MatchesOption;
      assert rows[..k] + rows[k + 1..] == [rows[0]] + (rows[1..][..k - 1] + rows[1..][k..]);
    }
  }

  lemma {:induction false} NoMatch(rows: seq<Row>, w: Option<Where>)
    requires forall row :: row in rows ==> !MatchesOption(row, w)
    ensures Select(rows, w) == []
  {
    hide Matches;
    if rows != [] { NoMatch(rows[1..], w); }
  }

  /** A call about one row answers with the first row that matches and changes no other; if
      none matches it finds nothing, and only an upsert inserts its row. */
  lemma OneRowCalls(rows: seq<Row>, operation: Operation, args: Args, k: nat)
    requires operation in {FindUnique, FindUniqueOrThrow, FindFirst, FindFirstOrThrow, Update, Upsert, Delete}
    ensures var (after, response) := Execute(rows, operation, args);
            && (FirstMatch(rows, args.where, k) && operation == Update ==>
                  after == rows[k := rows[k] + RowOf(args.data)] && response == Rows([rows[k] + RowOf(args.data)]))
            && (FirstMatch(rows, args.where, k) && operation == Upsert ==>
                  after == rows[k := rows[k] + args.update] && response == Rows([rows[k] + args.update]))
            && (FirstMatch(rows, args.where, k) && operation == Delete ==>
                  after == rows[..k] + rows[k + 1..] && response == Rows([rows[k]]))
            && (FirstMatch(rows, args.where, k) && operation !in {Update, Upsert, Delete} ==>
                  after == rows && response == Rows([rows[k]]))
            && ((forall row :: row in rows ==> !MatchesOption(row, args.where)) ==>
                  && (operation == Upsert ==> after == rows + [args.create] && response == Rows([args.create]))
                  && (operation != Upsert ==> after == rows)
                  && (operation in {FindUnique, FindFirst} ==> response == Rows([]))
                  && (operation !in {FindUnique, FindFirst, Upsert} ==> response == Missing))
  {
    if FirstMatch(rows, args.where, k) {
      SelectAtFirst(rows, args.where, k);
      PatchAtFirst(rows, args.where, RowOf(args.data), k);
      PatchAtFirst(rows, args.where, args.update, k);
      RemoveAtFirst(rows, args.where, k);
      assert |Select(rows, args.where)| > 1 ==> Select(rows, args.where)[..1] == [rows[k]];
      assert |Select(rows, args.where)| == 1 ==> Select(rows, args.where) == [rows[k]];
    }
    if forall row :: row in rows ==> !MatchesOption(row, args.where) { NoMatch(rows, args.where); }
    hide Select, PatchFirst, RemoveFirst, MatchesOption, FirstMatch;
  }

  /** A findMany answers with the rows that match, a bulk deletion takes them away, and a bulk
      update patches them in place; all leave every other row. */
  lemma ManyRowCalls(rows: seq<Row>, args: Args, row: Row, i: nat)
    ensures var (after, response) := Execute(rows, FindMany, args);
            && after == rows && response.Rows?
            && (args.take.None? ==>
                  multiset(response.rows)[row] == if MatchesOption(row, args.where) then multiset(rows)[row] else 0)
    ensures multiset(Execute(rows, DeleteMany, args).0)[row] ==
            if MatchesOption(row, args.where) then 0 else multiset(rows)[row]
    ensures var after := Execute(rows, UpdateMany, args).0;
            && |after| == |rows|
            && (i < |rows| ==>
                  after[i] == if MatchesOption(rows[i], args.where) then rows[i] + RowOf(args.data) else rows[i])
  {
    SelectExactly(rows, args.where, row);
    RemoveAllExactly(rows, args.where, row);
    if i < |rows| { PatchAllAt(rows, args.where, RowOf(args.data), i); }
    PatchAllLength(rows, args.where, RowOf(args.data));
    hide Select, PatchAll, RemoveAll, MatchesOption;
  }

  /** With a limit a findMany shows the first rows of what it would show without, in order, as
      many as the limit allows. */
  lemma LimitIsPrefix(rows: seq<Row>, args: Args, n: nat)
    ensures var all := Execute(rows, FindMany, args.(take := None)).1.rows;
            var shown := Execute(rows, FindMany, args.(take := Some(n))).1.rows;
            shown <= all && |shown| == if n < |all| then n else |all|
    ensures Execute(rows, FindMany, args.(take := None)).1.rows == Select(rows, args.where)
  {
    hide Select;
  }

  /** The counting calls answer with the number of rows that a findMany would show, a count
      changes nothing, and insertions append. */
  lemma CountsAndInsertions(rows: seq<Row>, args: Args)
    ensures Execute(rows, CountRows, args).0 == rows
    ensures forall operation :: operation in {CountRows, UpdateMany, DeleteMany} ==>
              Execute(rows, operation, args).1 == Count(|Execute(rows, FindMany, args.(take := None)).1.rows|)
    ensures args.data.One? ==> Execute(rows, Create, args) == (rows + [args.data.row], Rows([args.data.row]))
    ensures args.data.Many? ==>
              Execute(rows, CreateMany, args) == (rows + args.data.rows, Count(|args.data.rows|))
  {
    hide Select, PatchAll, RemoveAll;
  }

  lemma {:induction false} PatchAllLength(rows: seq<Row>, w: Option<Where>, data: Row)
    ensures |PatchAll(rows, w, data)| == |rows|
  {
    hide Matches;
    if rows != [] { PatchAllLength(rows[1..], w, data); }
  }
}
