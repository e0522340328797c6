/**
 * The generic database endpoint: authenticates the caller, reads
 * `{ table, action, payload, filters }` from the body and hands it to the
 * dispatcher. Every failure past the guards is a 500.
 */
module DbRoute {
  import opened Wrappers
  import opened Json
  import opened Http
  import opened Backend
  import opened Dispatcher

  datatype DbRequest = DbRequest(table: Option<Value>, action: Option<Value>, payload: Option<Row>, filters: Option<Filters>)

  const InternalError: Response<Data> := Response(500, Text("Internal Server Error"))

  /** The outcome of `POST` on the given tables. */
  function PostSpec(tables: Tables, user: Option<UserId>, body: Parsed<DbRequest>, generated: Row, call: CallOutcome): (h: Handled<Data, Tables>)
    ensures h.response.status in {200, 400, 401, 500}
    ensures h.response.status != 200 ==> h.state == tables
    ensures h.response.status == 200 ==> user.Some? && body.WellFormed? && h.response.body.Json?
  {
    if user.None? then Handled(Response(401, Text("Unauthorized")), tables)
    else if body.Malformed? then Handled(InternalError, tables)
    else
      var req := body.value;
      if !Present(req.table) || !Present(req.action) then Handled(Response(400, Text("Missing required fields")), tables)
      else if !req.table.value.Str? || !req.action.value.Str? then
        // a non-string table is never a configured key and a non-string action is never listed
        Handled(InternalError, tables)
      else
        var w := Handle(tables, req.table.value.s, req.action.value.s, req.payload, req.filters, generated, call);
        if w.result.Err? then Handled(InternalError, w.tables)
        else Handled(Response(200, Json(w.result.value)), w.tables)
  }

  /** Without a user the answer is 401 and the body is not even read. */
  lemma UnauthenticatedRejectedFirst(tables: Tables, body: Parsed<DbRequest>, generated: Row, call: CallOutcome)
    ensures PostSpec(tables, None, body, generated, call) == Handled(Response(401, Text("Unauthorized")), tables)
  {
  }

  /** A missing or falsy `table` or `action` gives 400 and changes nothing. */
  lemma MissingFieldsRejected(tables: Tables, user: UserId, req: DbRequest, generated: Row, call: CallOutcome)
    requires !Present(req.table) || !Present(req.action)
    ensures PostSpec(tables, Some(user), WellFormed(req), generated, call)
         == Handled(Response(400, Text("Missing required fields")), tables)
  {
  }

  /**
   * Past the guards, the status is 500 exactly when the dispatcher rejects
   * or the handler throws, and 200 with the dispatcher's result unchanged
   * otherwise; the tables are the dispatcher's.
   */
  lemma DispatchOutcome(tables: Tables, user: UserId, table: string, action: string, payload: Option<Row>,
                        filters: Option<Filters>, generated: Row, call: CallOutcome)
    requires table != "" && action != ""
    ensures var h := PostSpec(tables, Some(user), WellFormed(DbRequest(Some(Str(table)), Some(Str(action)), payload, filters)), generated, call);
      var w := Handle(tables, table, action, payload, filters, generated, call);
      && h.state == w.tables
      && (h.response.status == 500 <==> w.result.Err?)
      && (w.result.Ok? ==> h.response == Response(200, Json(w.result.value)))
  {
  }

  /** An unconfigured table or a disallowed action is a 500 that leaves every table as it was. */
  lemma RejectedRequestChangesNothing(tables: Tables, user: UserId, table: string, action: string, payload: Option<Row>,
                                      filters: Option<Filters>, generated: Row, call: CallOutcome)
    requires table != "" && action != ""
    requires Admit(SchemaConfig.Config, table, action).Err?
    ensures PostSpec(tables, Some(user), WellFormed(DbRequest(Some(Str(table)), Some(Str(action)), payload, filters)), generated, call)
         == Handled(InternalError, tables)
  {
  }

  /** `POST /api/db` */
  method Post(store: Store, user: Option<UserId>, body: Parsed<DbRequest>, generated: Row, call: CallOutcome) returns (resp: Response<Data>)
    modifies store
    ensures Handled(resp, store.tables) == PostSpec(old(store.tables), user, body, generated, call)
  {
    if user.None? {
      return Response(401, Text("Unauthorized"));
    }
    if body.Malformed? {
      return InternalError;
    }
    var req := body.value;
    if !Present(req.table) || !Present(req.action) {
      return Response(400, Text("Missing required fields"));
    }
    if !req.table.value.Str? || !req.action.value.Str? {
      return InternalError;
    }
    var result := HandleRequest(store, req.table.value.s, req.action.value.s, req.payload, req.filters, generated, call);
    if result.Err? {
      return InternalError;
    }
    resp := Response(200, Json(result.value));
  }
}
