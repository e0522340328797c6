/**
 * The generic request dispatcher: checks that the table is configured and
 * that it allows the action, then runs the action's handler.
 */
module Dispatcher {
  import opened Wrappers
  import opened Json
  import opened Backend
  import opened SchemaConfig
  import opened GenericHandlers

  datatype Handler = SelectHandler | InsertHandler | UpdateHandler | DeleteHandler

  /** What a handler returns: the rows of select, update and delete, or the one inserted row. */
  datatype Data = RowList(rows: seq<Row>) | OneRow(row: Row)

  /** `handlerMap[action]`: `delete` maps to `delete_`, each other action to the handler of its name. */
  function HandlerFor(action: string): (r: Option<Handler>)
    ensures r.Some? <==> action in {"select", "insert", "update", "delete"}
    ensures action == "delete" ==> r == Some(DeleteHandler)
  {
    if action == "select" then Some(SelectHandler)
    else if action == "insert" then Some(InsertHandler)
    else if action == "update" then Some(UpdateHandler)
    else if action == "delete" then Some(DeleteHandler)
    else None
  }

  /**
   * The three guards of `handleRequest`, in order: the table, then the
   * action, then the handler lookup. `schemaConfig[table]` on a name that is
   * not an own key but an `Object.prototype` member finds a value whose
   * `actions` is undefined, so the guard throws a `TypeError` there instead.
   */
  function Admit(config: map<string, TableConfig>, table: string, action: string): (r: Result<Handler, string>)
    ensures r.Ok? ==> table in config && Allows(config[table], action) && HandlerFor(action) == Some(r.value)
    ensures table in config && Allows(config[table], action) && action in TableActions ==> r.Ok?
  {
    if table !in config then
      if table in ObjectPrototypeMembers then Err(ReadOfUndefined("includes"))
      else Err("Table " + table + " not configured")
    else if !Allows(config[table], action) then
      Err("Action " + action + " not allowed for table " + table)
    else
      match HandlerFor(action)
      case None => Err("No handler found for action " + action)
      case Some(h) => Ok(h)
  }

  /** Runs handler `h` on the tables. */
  function Run(h: Handler, tables: Tables, table: string, payload: Option<Row>, filters: Option<Filters>,
               generated: Row, call: CallOutcome): (w: Write<Data>)
    ensures w.result.Err? ==> w.tables == tables
    ensures h == SelectHandler ==> w.tables == tables
    ensures w.tables.Keys == tables.Keys
  {
    match h
    case SelectHandler =>
      (match SelectSpec(tables, table, filters, call)
       case Err(e) => Write(Err(e), tables)
       case Ok(rows) => Write(Ok(RowList(rows)), tables))
    case InsertHandler =>
      var w := InsertSpec(tables, table, payload, generated, call);
      Write(if w.result.Ok? then Ok(OneRow(w.result.value)) else Err(w.result.error), w.tables)
    case UpdateHandler =>
      var w := UpdateSpec(tables, table, payload, filters, call);
      Write(if w.result.Ok? then Ok(RowList(w.result.value)) else Err(w.result.error), w.tables)
    case DeleteHandler =>
      var w := DeleteSpec(tables, table, filters, call);
      Write(if w.result.Ok? then Ok(RowList(w.result.value)) else Err(w.result.error), w.tables)
  }

  /** `handleRequest` against the fixed configuration: a rejection throws an `Error` and changes nothing. */
  function Handle(tables: Tables, table: string, action: string, payload: Option<Row>, filters: Option<Filters>,
                  generated: Row, call: CallOutcome): (w: Write<Data>)
    ensures w.result.Err? ==> w.tables == tables
    ensures !(table in Config && Allows(Config[table], action)) ==> w.result.Err? && w.tables == tables
  {
    match Admit(Config, table, action)
    case Err(message) => Write(Err(DbError(message, true)), tables)
    case Ok(h) => Run(h, tables, table, payload, filters, generated, call)
  }

  /**
   * A table without an entry is rejected before any handler runs: with
   * "Table … not configured", or with a `TypeError` for the names every
   * object inherits. The tables of the application that have no entry
   * (`agents`, `teams`, `integrations`, `matches`) are never reached.
   */
  lemma UnconfiguredTableRejected(table: string, action: string)
    requires table !in Config
    ensures Admit(Config, table, action).Err?
    ensures table !in ObjectPrototypeMembers ==> Admit(Config, table, action) == Err("Table " + table + " not configured")
    ensures forall t :: t in {"agents", "teams", "integrations", "matches"} ==> Admit(Config, t, action).Err?
  {
  }

  /** A configured table rejects an action its entry does not list, and the table check came first. */
  lemma DisallowedActionRejected(table: string, action: string)
    requires table in Config && !Allows(Config[table], action)
    ensures Admit(Config, table, action) == Err("Action " + action + " not allowed for table " + table)
  {
  }

  /** Every allowed action of every configured table has a handler: "No handler found" cannot happen. */
  lemma NoHandlerBranchUnreachable(table: string, action: string)
    ensures Admit(Config, table, action).Ok? <==> table in Config && Allows(Config[table], action)
    ensures Admit(Config, table, action).Ok? ==> Some(Admit(Config, table, action).value) == HandlerFor(action)
  {
    if table in Config && Allows(Config[table], action) {
      ConfigListsOnlyTableActions();
      assert action in TableActions;
    }
  }

  /** `delete` runs `delete_`; `select`, `insert` and `update` run the handler of the same name. */
  lemma HandlerNames()
    ensures HandlerFor("select") == Some(SelectHandler) && HandlerFor("insert") == Some(InsertHandler)
    ensures HandlerFor("update") == Some(UpdateHandler) && HandlerFor("delete") == Some(DeleteHandler)
    ensures forall a :: HandlerFor(a).Some? <==> a in TableActions
  {
  }

  /** Admission reads only the actions of an entry: two configurations that differ only in roles admit alike. */
  lemma RolesNeverConsulted(c1: map<string, TableConfig>, c2: map<string, TableConfig>, table: string, action: string)
    requires c1.Keys == c2.Keys
    requires forall t :: t in c1 ==> c1[t].actions == c2[t].actions
    ensures Admit(c1, table, action) == Admit(c2, table, action)
  {
  }

  /** On admission the result and the new tables are exactly the chosen handler's, on the same inputs. */
  lemma AdmittedRequestRunsHandler(tables: Tables, table: string, action: string, payload: Option<Row>,
                                   filters: Option<Filters>, generated: Row, call: CallOutcome)
    requires table in Config && Allows(Config[table], action)
    ensures Handle(tables, table, action, payload, filters, generated, call)
         == Run(HandlerFor(action).value, tables, table, payload, filters, generated, call)
  {
    NoHandlerBranchUnreachable(table, action);
  }

  /** `llm_models` cannot be written through the dispatcher, whatever the request. */
  lemma LlmModelsNeverWritten(tables: Tables, action: string, payload: Option<Row>, filters: Option<Filters>,
                              generated: Row, call: CallOutcome)
    ensures Handle(tables, "llm_models", action, payload, filters, generated, call).tables == tables
  {
  }

  /** `profiles` never gains or loses a row through the dispatcher. */
  lemma ProfilesKeepTheirRows(tables: Tables, action: string, payload: Option<Row>, filters: Option<Filters>,
                              generated: Row, call: CallOutcome)
    requires "profiles" in tables
    ensures var w := Handle(tables, "profiles", action, payload, filters, generated, call);
      "profiles" in w.tables && |w.tables["profiles"]| == |tables["profiles"]|
  {
  }

  /** A request changes at most the table it names. */
  lemma OnlyNamedTableChanges(tables: Tables, table: string, action: string, payload: Option<Row>,
                              filters: Option<Filters>, generated: Row, call: CallOutcome)
    ensures var w := Handle(tables, table, action, payload, filters, generated, call);
      w.tables.Keys == tables.Keys && forall t :: t in tables && t != table ==> w.tables[t] == tables[t]
  {
  }

  /** `handleRequest`: guards, then dispatch to the generic handler. */
  method HandleRequest(store: Store, table: string, action: string, payload: Option<Row>, filters: Option<Filters>,
                       generated: Row, call: CallOutcome) returns (r: Result<Data, DbError>)
    modifies store
    ensures Write(r, store.tables) == Handle(old(store.tables), table, action, payload, filters, generated, call)
  {
    var admitted := Admit(Config, table, action);
    if admitted.Err? {
      return Err(DbError(admitted.error, true));
    }
    match admitted.value
    case SelectHandler =>
      var rows := Select(store, table, filters, call);
      r := if rows.Ok? then Ok(RowList(rows.value)) else Err(rows.error);
    case InsertHandler =>
      var row := Insert(store, table, payload, generated, call);
      r := if row.Ok? then Ok(OneRow(row.value)) else Err(row.error);
    case UpdateHandler =>
      var rows := Update(store, table, payload, filters, call);
      r := if rows.Ok? then Ok(RowList(rows.value)) else Err(rows.error);
    case DeleteHandler =>
      var rows := Delete(store, table, filters, call);
      r := if rows.Ok? then Ok(RowList(rows.value)) else Err(rows.error);
  }
}
