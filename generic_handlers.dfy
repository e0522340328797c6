/**
 * The four generic table handlers behind the database endpoint: select,
 * insert, update and delete with equality filters. Update and delete refuse
 * to run without filters.
 */
module GenericHandlers {
  import opened Wrappers
  import opened Json
  import opened Backend

  /** The error `update` and `delete_` throw when no filters are given. */
  function FiltersRequired(action: string): DbError {
    DbError("Filters required for " + action, true)
  }

  /** What `select` returns: the rows matching every filter, all rows without filters. */
  function SelectSpec(tables: Tables, table: string, filters: Option<Filters>, call: CallOutcome): (r: Result<seq<Row>, DbError>)
    ensures r.Ok? <==> call.Served? && table in tables
    ensures r.Ok? ==> |r.value| <= |tables[table]|
  {
    Selection(tables, table, if filters.Some? then filters.value else map[], call)
  }

  function InsertSpec(tables: Tables, table: string, payload: Option<Row>, generated: Row, call: CallOutcome): (w: Write<Row>)
    ensures w.result.Err? ==> w.tables == tables
    ensures w.result.Ok? ==> table in tables && w.tables == tables[table := tables[table] + [w.result.value]]
  {
    Insertion(tables, table, payload, generated, call)
  }

  function UpdateSpec(tables: Tables, table: string, payload: Option<Row>, filters: Option<Filters>, call: CallOutcome): (w: Write<seq<Row>>)
    ensures filters.None? ==> w.result == Err(FiltersRequired("update"))
    ensures w.result.Err? ==> w.tables == tables
    ensures w.result.Ok? ==>
      table in tables && table in w.tables && |w.tables[table]| == |tables[table]| && |w.result.value| <= |tables[table]|
  {
    if filters.None? then Write(Err(FiltersRequired("update")), tables)
    else Updating(tables, table, payload, filters.value, call)
  }

  function DeleteSpec(tables: Tables, table: string, filters: Option<Filters>, call: CallOutcome): (w: Write<seq<Row>>)
    ensures filters.None? ==> w.result == Err(FiltersRequired("delete"))
    ensures w.result.Err? ==> w.tables == tables
    ensures w.result.Ok? ==> table in tables && table in w.tables && |w.result.value| + |w.tables[table]| == |tables[table]|
  {
    if filters.None? then Write(Err(FiltersRequired("delete")), tables)
    else
      var w := Deletion(tables, table, filters.value, call);
      if w.result.Ok? then MatchingRemainingSplit(tables[table], filters.value); w
      else w
  }

  /** The rows `select` returns are exactly the table's rows that match every filter. */
  lemma SelectReturnsMatchingRows(tables: Tables, table: string, filters: Option<Filters>, x: Row)
    requires table in tables
    ensures x in SelectSpec(tables, table, filters, Served).value <==>
      x in tables[table] && (filters.Some? ==> Matches(x, filters.value))
  {
    if filters.None? {
      MatchingNoFilters(tables[table]);
    }
  }

  /** `select` with no filters returns every row of the table, in order. */
  lemma SelectWithoutFiltersReturnsAll(tables: Tables, table: string)
    requires table in tables
    ensures SelectSpec(tables, table, None, Served) == Ok(tables[table])
  {
    MatchingNoFilters(tables[table]);
  }

  /**
   * `select` with filters returns exactly the rows equal to every filter
   * value, in table order: splitting the filters in two and narrowing twice
   * gives the same rows.
   */
  lemma SelectFiltersConjunctive(tables: Tables, table: string, f: Filters, g: Filters)
    requires table in tables
    requires forall k :: k in f && k in g ==> f[k] == g[k]
    ensures SelectSpec(tables, table, Some(f + g), Served) == Ok(Matching(Matching(tables[table], f), g))
    ensures forall x :: x in SelectSpec(tables, table, Some(f + g), Served).value <==>
      x in tables[table] && Matches(x, f) && Matches(x, g)
  {
    MatchingConjunction(tables[table], f, g);
    forall x ensures Matches(x, f) && Matches(x, g) <==> Matches(x, f + g) {
      MatchesUnion(x, f, g);
    }
  }

  /**
   * `update` changes only the matching rows: position by position, a row
   * that matches gets the payload written over it and every other row stays
   * as it was. The returned rows are the matching rows, patched.
   */
  lemma UpdateOnlyTouchesMatchingRows(tables: Tables, table: string, payload: Row, filters: Filters)
    requires table in tables
    ensures var w := UpdateSpec(tables, table, Some(payload), Some(filters), Served);
      && w.result == Ok(Patched(Matching(tables[table], filters), filters, payload))
      && w.tables.Keys == tables.Keys
      && |w.tables[table]| == |tables[table]|
      && (forall i :: 0 <= i < |tables[table]| ==>
            w.tables[table][i] == if Matches(tables[table][i], filters) then tables[table][i] + payload else tables[table][i])
      && (forall t :: t in tables && t != table ==> w.tables[t] == tables[t])
  {
  }

  /** A `null` filter value selects no row, so `update` and `delete_` leave the table as it was. */
  lemma NullFilterChangesNothing(tables: Tables, table: string, payload: Row, filters: Filters, k: string)
    requires table in tables && k in filters && filters[k] == Null
    ensures UpdateSpec(tables, table, Some(payload), Some(filters), Served) == Write(Ok([]), tables)
    ensures DeleteSpec(tables, table, Some(filters), Served) == Write(Ok([]), tables)
  {
    NullFilterMatchesNothing(tables[table], filters, k);
    PatchedNothing(tables[table], filters, payload);
  }

  /** `delete_` removes exactly the matching rows and returns them; nothing is lost and the rest keep their order. */
  lemma DeleteSplitsTable(tables: Tables, table: string, filters: Filters)
    requires table in tables
    ensures var w := DeleteSpec(tables, table, Some(filters), Served);
      && w.result == Ok(Matching(tables[table], filters))
      && table in w.tables
      && multiset(w.result.value) + multiset(w.tables[table]) == multiset(tables[table])
      && Matching(w.tables[table], filters) == []
  {
    MatchingRemainingSplit(tables[table], filters);
    RemainingHasNoMatch(tables[table], filters);
  }

  /** Every entry of `f` is also an entry of `g`. */
  predicate SubFilters(f: Filters, g: Filters) {
    forall k :: k in f ==> k in g && f[k] == g[k]
  }

  /** One `.eq` step: narrowing the rows matching `applied` by one more entry of `entries`. */
  lemma NarrowByOne(all: seq<Row>, applied: Filters, entries: Filters, key: string)
    requires SubFilters(applied, entries) && key in entries
    ensures Matching(Matching(all, applied), map[key := entries[key]]) == Matching(all, applied[key := entries[key]])
    ensures SubFilters(applied[key := entries[key]], entries)
  {
    var eq := map[key := entries[key]];
    MatchingConjunction(all, applied, eq);
    assert applied + eq == applied[key := entries[key]];
  }

  /**
   * `select`: narrows the table by one `.eq` per filter entry; the rows
   * left after each step are those matching every entry applied so far.
   */
  method Select(store: Store, table: string, filters: Option<Filters>, call: CallOutcome) returns (r: Result<seq<Row>, DbError>)
    ensures r == SelectSpec(store.tables, table, filters, call)
  {
    r := Rows(store.tables, table, call);
    if r.Err? {
      return;
    }
    var all := r.value;
    var rows := all;
    var applied: Filters := map[];
    MatchingNoFilters(all);
    if filters.Some? {
      var entries := filters.value;
      var pending := entries.Keys;
      while pending != {}
        invariant pending <= entries.Keys
        invariant applied.Keys == entries.Keys - pending
        invariant SubFilters(applied, entries)
        invariant rows == Matching(all, applied)
        decreases pending
      {
        var key :| key in pending;
        NarrowByOne(all, applied, entries, key);
        rows := Matching(rows, map[key := entries[key]]);
        applied := applied[key := entries[key]];
        pending := pending - {key};
      }
      assert applied == entries;
    }
    r := Ok(rows);
  }

  /** `insert`: adds one row from the payload and returns it; a backend error leaves the table as it was. */
  method Insert(store: Store, table: string, payload: Option<Row>, generated: Row, call: CallOutcome) returns (r: Result<Row, DbError>)
    modifies store
    ensures Write(r, store.tables) == InsertSpec(old(store.tables), table, payload, generated, call)
    ensures r.Err? ==> store.tables == old(store.tables)
  {
    r := store.InsertRow(table, payload, generated, call);
  }

  /** `update`: without filters it throws and changes nothing; otherwise it patches the matching rows. */
  method Update(store: Store, table: string, payload: Option<Row>, filters: Option<Filters>, call: CallOutcome) returns (r: Result<seq<Row>, DbError>)
    modifies store
    ensures Write(r, store.tables) == UpdateSpec(old(store.tables), table, payload, filters, call)
    ensures filters.None? ==> r == Err(FiltersRequired("update")) && store.tables == old(store.tables)
  {
    if filters.None? {
      return Err(FiltersRequired("update"));
    }
    r := store.UpdateWhere(table, payload, filters.value, call);
  }

  /** `delete_`: without filters it throws and changes nothing; otherwise it removes and returns the matching rows. */
  method Delete(store: Store, table: string, filters: Option<Filters>, call: CallOutcome) returns (r: Result<seq<Row>, DbError>)
    modifies store
    ensures Write(r, store.tables) == DeleteSpec(old(store.tables), table, filters, call)
    ensures filters.None? ==> r == Err(FiltersRequired("delete")) && store.tables == old(store.tables)
  {
    if filters.None? {
      return Err(FiltersRequired("delete"));
    }
    r := store.DeleteWhere(table, filters.value, call);
  }
}
