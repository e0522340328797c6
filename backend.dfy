/**
 * The managed database as the route handlers see it: named tables, each a
 * sequence of rows, a row a map from column to value. Queries filter by
 * column equality (`.eq`, `.match`), sort by `created_at` (`.order`) and
 * write in place (`.insert`, `.update`, `.delete`). Whether one call reaches
 * the database or comes back with an error is an input of the model.
 */
module Backend {
  import opened Wrappers
  import opened Json

  type Row = map<string, Value>

  /** Column equalities that must all hold (`.eq(key, value)` chained, or `.match(filters)`). */
  type Filters = map<string, Value>

  type Tables = map<string, seq<Row>>

  /**
   * An error object the database client hands back. Whether the client
   * builds it as a JavaScript `Error` instance depends on its version, so it
   * is part of the input.
   */
  datatype DbError = DbError(message: string, isErrorInstance: bool)

  /** What the backend does with one call: serves it, or reports an error. */
  datatype CallOutcome = Served | Refused(error: DbError)

  /** The error for a table the database does not have. */
  function MissingRelation(table: string): DbError {
    DbError("relation \"public." + table + "\" does not exist", false)
  }

  /** The error for a write sent without a body. */
  const EmptyBody := DbError("Empty or invalid json", false)

  /** The rows of `table` as one call sees them. */
  function Rows(tables: Tables, table: string, call: CallOutcome): (r: Result<seq<Row>, DbError>)
    ensures r.Ok? <==> call.Served? && table in tables
    ensures r.Ok? ==> r.value == tables[table]
    ensures call.Refused? ==> r == Err(call.error)
  {
    if call.Refused? then Err(call.error)
    else if table !in tables then Err(MissingRelation(table))
    else Ok(tables[table])
  }

  /**
   * The row holds every filter column with exactly the filter's value. SQL
   * `=` is never true of a null, so a `null` filter value matches no row.
   */
  predicate Matches(row: Row, filters: Filters) {
    forall k :: k in filters ==> k in row && !filters[k].Null? && row[k] == filters[k]
  }

  /** The rows that match, in table order. */
  function Matching(rows: seq<Row>, filters: Filters): (r: seq<Row>)
    ensures |r| <= |rows|
    ensures forall x :: x in r <==> x in rows && Matches(x, filters)
  {
    if rows == [] then []
    else (if Matches(rows[0], filters) then [rows[0]] else []) + Matching(rows[1..], filters)
  }

  /** The rows that do not match, in table order. */
  function Remaining(rows: seq<Row>, filters: Filters): (r: seq<Row>)
    ensures |r| <= |rows|
    ensures forall x :: x in r <==> x in rows && !Matches(x, filters)
  {
    if rows == [] then []
    else (if Matches(rows[0], filters) then [] else [rows[0]]) + Remaining(rows[1..], filters)
  }

  /** Every matching row with `patch` written over it; the other rows as they were. */
  function Patched(rows: seq<Row>, filters: Filters, patch: Row): (r: seq<Row>)
    ensures |r| == |rows|
    ensures forall i :: 0 <= i < |rows| ==> r[i] == if Matches(rows[i], filters) then rows[i] + patch else rows[i]
  {
    if rows == [] then []
    else [if Matches(rows[0], filters) then rows[0] + patch else rows[0]] + Patched(rows[1..], filters, patch)
  }

  /** Filtering distributes over concatenation: it keeps the table's order. */
  lemma {:induction false} MatchingAppend(a: seq<Row>, b: seq<Row>, filters: Filters)
    ensures Matching(a + b, filters) == Matching(a, filters) + Matching(b, filters)
  {
    if a == [] {
      assert a + b == b;
    } else {
      assert (a + b)[1..] == a[1..] + b;
      MatchingAppend(a[1..], b, filters);
    }
  }

  /** No filters: every row, in order. */
  lemma {:induction false} MatchingNoFilters(rows: seq<Row>)
    ensures Matching(rows, map[]) == rows
  {
    if rows != [] { MatchingNoFilters(rows[1..]); }
  }

  /** A row matches two filters that agree on their shared columns exactly when it matches their union. */
  lemma MatchesUnion(x: Row, f: Filters, g: Filters)
    requires forall k :: k in f && k in g ==> f[k] == g[k]
    ensures Matches(x, f) && Matches(x, g) <==> Matches(x, f + g)
  {
    if Matches(x, f + g) {
      assert forall k :: k in f ==> k in f + g && (f + g)[k] == f[k];
    }
  }

  /** Filters are conjunctive: narrowing by `f` and then by `g` is narrowing by both at once. */
  lemma {:induction false} MatchingConjunction(rows: seq<Row>, f: Filters, g: Filters)
    requires forall k :: k in f && k in g ==> f[k] == g[k]
    ensures Matching(Matching(rows, f), g) == Matching(rows, f + g)
  {
    if rows != [] {
      var x, rest := rows[0], rows[1..];
      var head := if Matches(x, f) then [x] else [];
      MatchingConjunction(rest, f, g);
      MatchesUnion(x, f, g);
      assert Matching(rows, f) == head + Matching(rest, f);
      MatchingAppend(head, Matching(rest, f), g);
      assert [x][1..] == [];
      assert Matching(head, g) == if Matches(x, f + g) then [x] else [];
    }
  }

  /** Every row either matches or remains, and none is lost or duplicated. */
  lemma {:induction false} MatchingRemainingSplit(rows: seq<Row>, filters: Filters)
    ensures multiset(Matching(rows, filters)) + multiset(Remaining(rows, filters)) == multiset(rows)
    ensures |Matching(rows, filters)| + |Remaining(rows, filters)| == |rows|
  {
    if rows != [] {
      MatchingRemainingSplit(rows[1..], filters);
      assert rows == [rows[0]] + rows[1..];
    }
  }

  /** When no row matches, patching changes no row. */
  lemma PatchedNothing(rows: seq<Row>, filters: Filters, patch: Row)
    requires Matching(rows, filters) == []
    ensures Patched(rows, filters, patch) == rows
  {
    var p := Patched(rows, filters, patch);
    forall i | 0 <= i < |rows| ensures p[i] == rows[i] {
      assert rows[i] in rows;
      assert rows[i] !in Matching(rows, filters);
    }
  }

  /** A `null` filter value selects nothing, so nothing is deleted or patched. */
  lemma {:induction false} NullFilterMatchesNothing(rows: seq<Row>, filters: Filters, k: string)
    requires k in filters && filters[k] == Null
    ensures Matching(rows, filters) == []
    ensures Remaining(rows, filters) == rows
  {
    if rows != [] {
      NullFilterMatchesNothing(rows[1..], filters, k);
      assert !Matches(rows[0], filters);
      assert rows == [rows[0]] + rows[1..];
    }
  }

  /** What remains after removing the matching rows holds no matching row. */
  lemma {:induction false} RemainingHasNoMatch(rows: seq<Row>, filters: Filters)
    ensures Matching(Remaining(rows, filters), filters) == []
  {
    if rows != [] {
      RemainingHasNoMatch(rows[1..], filters);
      var t := Remaining(rows[1..], filters);
      if Matches(rows[0], filters) {
        assert Remaining(rows, filters) == t;
      } else {
        assert Remaining(rows, filters) == [rows[0]] + t;
        assert ([rows[0]] + t)[1..] == t;
      }
    }
  }

  /** Patching only matching rows leaves the non-matching ones exactly as they were. */
  lemma {:induction false} PatchedKeepsRemaining(rows: seq<Row>, filters: Filters, patch: Row)
    requires forall k :: k in patch && k in filters ==> patch[k] == filters[k]
    ensures Remaining(Patched(rows, filters, patch), filters) == Remaining(rows, filters)
  {
    if rows != [] {
      PatchedKeepsRemaining(rows[1..], filters, patch);
      var x := rows[0];
      if Matches(x, filters) {
        assert Matches(x + patch, filters) by {
          forall k | k in filters ensures k in x + patch && (x + patch)[k] == filters[k] {
            if k in patch { assert patch[k] == filters[k]; }
          }
        }
      }
      assert Patched(rows, filters, patch)[1..] == Patched(rows[1..], filters, patch);
    }
  }

  // ---- ORDER BY created_at DESC ----

  /**
   * The `created_at` timestamp of a row, `None` when it is null or absent.
   * The database returns timestamps as ISO-8601 strings in one fixed format,
   * so comparing them character by character compares the instants. A
   * column of that type holds no other value; any other value is read as
   * null here.
   */
  function CreatedAt(row: Row): Option<string> {
    if "created_at" in row && row["created_at"].Str? then Some(row["created_at"].s) else None
  }

  /** `a` is `b` or sorts after it, comparing character codes from the left. */
  predicate NotBefore(a: string, b: string)
    decreases |b|
  {
    b == [] || (a != [] && (a[0] > b[0] || (a[0] == b[0] && NotBefore(a[1..], b[1..]))))
  }

  /** Any two strings are ordered one way or the other. */
  lemma {:induction false} NotBeforeTotal(a: string, b: string)
    ensures NotBefore(a, b) || NotBefore(b, a)
    decreases |b|
  {
    if a != [] && b != [] && a[0] == b[0] {
      NotBeforeTotal(a[1..], b[1..]);
    }
  }

  lemma {:induction false} NotBeforeTransitive(a: string, b: string, c: string)
    requires NotBefore(a, b) && NotBefore(b, c)
    ensures NotBefore(a, c)
    decreases |c|
  {
    if c != [] && a[0] == b[0] == c[0] {
      NotBeforeTransitive(a[1..], b[1..], c[1..]);
    }
  }

  /**
   * `a` may come before `b` when sorting by `created_at` descending.
   * PostgreSQL puts nulls first in descending order.
   */
  predicate NotOlder(a: Row, b: Row) {
    match (CreatedAt(a), CreatedAt(b))
    case (None, _) => true
    case (Some(_), None) => false
    case (Some(x), Some(y)) => NotBefore(x, y)
  }

  /** Of two rows, one may always come first. */
  lemma NotOlderTotal(a: Row, b: Row)
    ensures NotOlder(a, b) || NotOlder(b, a)
  {
    if CreatedAt(a).Some? && CreatedAt(b).Some? {
      NotBeforeTotal(CreatedAt(a).value, CreatedAt(b).value);
    }
  }

  lemma NotOlderTransitive(a: Row, b: Row, c: Row)
    requires NotOlder(a, b) && NotOlder(b, c)
    ensures NotOlder(a, c)
  {
    if CreatedAt(a).Some? {
      NotBeforeTransitive(CreatedAt(a).value, CreatedAt(b).value, CreatedAt(c).value);
    }
  }

  predicate NewestFirstOrder(rows: seq<Row>) {
    forall i, j :: 0 <= i < j < |rows| ==> NotOlder(rows[i], rows[j])
  }

  function InsertByAge(x: Row, rows: seq<Row>): (r: seq<Row>)
    requires NewestFirstOrder(rows)
    ensures NewestFirstOrder(r)
    ensures multiset(r) == multiset(rows) + multiset{x}
  {
    if rows == [] then [x]
    else if NotOlder(x, rows[0]) then
      AheadOfNewest(x, rows);
      [x] + rows
    else
      var rest := InsertByAge(x, rows[1..]);
      HeadStaysFirst(x, rows, rest);
      assert rows == [rows[0]] + rows[1..];
      [rows[0]] + rest
  }

  /** The newest row stays ahead of everything once an older row is inserted behind it. */
  lemma HeadStaysFirst(x: Row, rows: seq<Row>, rest: seq<Row>)
    requires rows != [] && NewestFirstOrder(rows) && !NotOlder(x, rows[0])
    requires multiset(rest) == multiset(rows[1..]) + multiset{x}
    ensures forall y | y in rest :: NotOlder(rows[0], y)
  {
    forall y | y in rest ensures NotOlder(rows[0], y) {
      assert y in multiset(rest);
      if y == x {
        NotOlderTotal(x, rows[0]);
      } else {
        assert y in multiset(rows[1..]);
        var k :| 0 <= k < |rows[1..]| && rows[1..][k] == y;
        assert rows[k + 1] == y;
      }
    }
  }

  /** Of two rows with timestamps, the strictly later one is listed first, whatever their stored order. */
  lemma LaterRowFirst(a: Row, b: Row)
    requires CreatedAt(a).Some? && CreatedAt(b).Some? && !NotBefore(CreatedAt(b).value, CreatedAt(a).value)
    ensures NewestFirst([b, a]) == [a, b]
    ensures NewestFirst([a, b]) == [a, b]
  {
    assert [b, a][1..] == [a] && [a, b][1..] == [b];
    assert NewestFirst([a]) == [a] by { assert [a][1..] == []; }
    assert NewestFirst([b]) == [b] by { assert [b][1..] == []; }
    NotBeforeTotal(CreatedAt(a).value, CreatedAt(b).value);
  }

  /** A row not older than the newest of an ordered list may go in front of it. */
  lemma AheadOfNewest(x: Row, rows: seq<Row>)
    requires rows != [] && NewestFirstOrder(rows) && NotOlder(x, rows[0])
    ensures NewestFirstOrder([x] + rows)
  {
    var r := [x] + rows;
    forall i, j | 0 <= i < j < |r| ensures NotOlder(r[i], r[j]) {
      if i == 0 && j > 1 {
        NotOlderTransitive(x, rows[0], rows[j - 1]);
      }
    }
  }

  /** `.order('created_at', { ascending: false })`: the same rows, newest first. */
  function NewestFirst(rows: seq<Row>): (r: seq<Row>)
    ensures NewestFirstOrder(r)
    ensures multiset(r) == multiset(rows)
  {
    if rows == [] then []
    else
      assert rows == [rows[0]] + rows[1..];
      InsertByAge(rows[0], NewestFirst(rows[1..]))
  }

  // ---- the tables as one object that writes change in place ----

  /** The effect of a write: what the call returns and the tables afterwards. */
  datatype Write<+T> = Write(result: Result<T, DbError>, tables: Tables)

  /** `.insert(payload).select().single()`: appends the payload, over the values the database generates. */
  function Insertion(tables: Tables, table: string, payload: Option<Row>, generated: Row, call: CallOutcome): (w: Write<Row>)
    ensures w.result.Err? ==> w.tables == tables
    ensures w.result.Ok? <==> call.Served? && table in tables && payload.Some?
    ensures w.result.Ok? ==>
      && w.result.value == generated + payload.value
      && w.tables == tables[table := tables[table] + [w.result.value]]
  {
    match Rows(tables, table, call)
    case Err(e) => Write(Err(e), tables)
    case Ok(rows) =>
      if payload.None? then Write(Err(EmptyBody), tables)
      else
        var row := generated + payload.value;
        Write(Ok(row), tables[table := rows + [row]])
  }

  /** `.update(patch).match(filters).select()`: patches the matching rows and returns them as patched. */
  function Updating(tables: Tables, table: string, patch: Option<Row>, filters: Filters, call: CallOutcome): (w: Write<seq<Row>>)
    ensures w.result.Err? ==> w.tables == tables
    ensures w.result.Ok? <==> call.Served? && table in tables && patch.Some?
    ensures w.result.Ok? ==>
      && w.tables == tables[table := Patched(tables[table], filters, patch.value)]
      && w.result.value == Patched(Matching(tables[table], filters), filters, patch.value)
  {
    match Rows(tables, table, call)
    case Err(e) => Write(Err(e), tables)
    case Ok(rows) =>
      if patch.None? then Write(Err(EmptyBody), tables)
      else Write(Ok(Patched(Matching(rows, filters), filters, patch.value)),
                 tables[table := Patched(rows, filters, patch.value)])
  }

  /** The error `.single()` reports when a query does not return exactly one row. */
  const NotSingleRow := DbError("JSON object requested, multiple (or no) rows returned", false)

  /**
   * `.update(patch).match(filters).select().single()`: the update stands only
   * when exactly one row matched; otherwise the call fails and the
   * request's transaction leaves the table as it was.
   */
  function SingleUpdating(tables: Tables, table: string, patch: Option<Row>, filters: Filters, call: CallOutcome): (w: Write<Row>)
    ensures w.result.Err? ==> w.tables == tables
    ensures w.result.Ok? <==>
      call.Served? && table in tables && patch.Some? && |Matching(tables[table], filters)| == 1
    ensures w.result.Ok? ==>
      && w.result.value == Matching(tables[table], filters)[0] + patch.value
      && w.tables == tables[table := Patched(tables[table], filters, patch.value)]
  {
    var u := Updating(tables, table, patch, filters, call);
    match u.result
    case Err(e) => Write(Err(e), tables)
    case Ok(rows) => if |rows| == 1 then Write(Ok(rows[0]), u.tables) else Write(Err(NotSingleRow), tables)
  }

  /** `.delete().match(filters).select()`: removes the matching rows and returns them. */
  function Deletion(tables: Tables, table: string, filters: Filters, call: CallOutcome): (w: Write<seq<Row>>)
    ensures w.result.Err? ==> w.tables == tables
    ensures w.result.Ok? <==> call.Served? && table in tables
    ensures w.result.Ok? ==>
      && w.result.value == Matching(tables[table], filters)
      && w.tables == tables[table := Remaining(tables[table], filters)]
  {
    match Rows(tables, table, call)
    case Err(e) => Write(Err(e), tables)
    case Ok(rows) => Write(Ok(Matching(rows, filters)), tables[table := Remaining(rows, filters)])
  }

  /** `.select().match(filters)`: the matching rows in table order. */
  function Selection(tables: Tables, table: string, filters: Filters, call: CallOutcome): (r: Result<seq<Row>, DbError>)
    ensures r.Ok? <==> call.Served? && table in tables
    ensures r.Ok? ==> r.value == Matching(tables[table], filters)
  {
    match Rows(tables, table, call)
    case Err(e) => Err(e)
    case Ok(rows) => Ok(Matching(rows, filters))
  }

  /** The database: every table, changed in place by the write calls. */
  class Store {
    var tables: Tables

    constructor (initial: Tables)
      ensures tables == initial
    {
      tables := initial;
    }

    method InsertRow(table: string, payload: Option<Row>, generated: Row, call: CallOutcome) returns (r: Result<Row, DbError>)
      modifies this
      ensures Write(r, tables) == Insertion(old(tables), table, payload, generated, call)
    {
      var w := Insertion(tables, table, payload, generated, call);
      r, tables := w.result, w.tables;
    }

    method UpdateWhere(table: string, patch: Option<Row>, filters: Filters, call: CallOutcome) returns (r: Result<seq<Row>, DbError>)
      modifies this
      ensures Write(r, tables) == Updating(old(tables), table, patch, filters, call)
    {
      var w := Updating(tables, table, patch, filters, call);
      r, tables := w.result, w.tables;
    }

    method UpdateOne(table: string, patch: Option<Row>, filters: Filters, call: CallOutcome) returns (r: Result<Row, DbError>)
      modifies this
      ensures Write(r, tables) == SingleUpdating(old(tables), table, patch, filters, call)
    {
      var w := SingleUpdating(tables, table, patch, filters, call);
      r, tables := w.result, w.tables;
    }

    method DeleteWhere(table: string, filters: Filters, call: CallOutcome) returns (r: Result<seq<Row>, DbError>)
      modifies this
      ensures Write(r, tables) == Deletion(old(tables), table, filters, call)
    {
      var w := Deletion(tables, table, filters, call);
      r, tables := w.result, w.tables;
    }
  }
}
