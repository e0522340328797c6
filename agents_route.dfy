/**
 * The agents endpoint: create an agent, list a team's agents, delete an
 * agent. Every table operation is scoped to the authenticated user.
 */
module AgentsRoute {
  import opened Wrappers
  import opened Json
  import opened Http
  import opened Backend

  const Agents := "agents"

  datatype AgentFields = AgentFields(name: Option<Value>, teamId: Option<Value>, description: Option<Value>)

  /**
   * The row `POST` inserts. `JSON.stringify` drops an undefined
   * `description`, so the column is then not sent at all.
   */
  function NewAgent(name: Value, teamId: Value, description: Option<Value>, user: UserId): (r: Row)
    ensures r.Keys == {"name", "team_id", "user_id"} + (if description.Some? then {"description"} else {})
    ensures r["name"] == name && r["team_id"] == teamId && r["user_id"] == Str(user)
    ensures description.Some? ==> r["description"] == description.value
  {
    map["name" := name, "team_id" := teamId]
      + (if description.Some? then map["description" := description.value] else map[])
      + map["user_id" := Str(user)]
  }

  /** The filter both `GET` and `DELETE` scope their query with, besides the caller's `user_id`. */
  function OwnedBy(column: string, value: string, user: UserId): Filters {
    map[column := Str(value), "user_id" := Str(user)]
  }

  /**
   * `POST`: 400 for a falsy name or team, 401 without a user, and 500 for a
   * body that does not parse or an insert that fails; only a 200 adds a row.
   */
  function PostSpec(tables: Tables, body: Parsed<AgentFields>, user: Option<UserId>, generated: Row, call: CallOutcome): (h: Handled<Row, Tables>)
    ensures h.response.status in {200, 400, 401, 500}
    ensures h.response.status == 200 <==>
      body.WellFormed? && Present(body.value.name) && Present(body.value.teamId) && user.Some? && call.Served? && Agents in tables
    ensures h.response.status != 200 ==> h.state == tables
    ensures h.response.status == 200 ==> h.response.body.Json? && h.state == tables[Agents := tables[Agents] + [h.response.body.value]]
  {
    if body.Malformed? then Handled(Fail(500, "Error creating agent"), tables)
    else
      var f := body.value;
      if !Present(f.name) || !Present(f.teamId) then Handled(Fail(400, "Name and team ID are required"), tables)
      else if user.None? then Handled(Fail(401, "Unauthorized"), tables)
      else
        var w := Insertion(tables, Agents, Some(NewAgent(f.name.value, f.teamId.value, f.description, user.value)), generated, call);
        if w.result.Err? then Handled(Fail(500, "Error creating agent"), w.tables)
        else Handled(Success(w.result.value), w.tables)
  }

  /** `GET /api/agents?team_id=…`: the caller's agents of that team, newest first. */
  function Get(tables: Tables, teamId: Option<string>, user: Option<UserId>, call: CallOutcome): (r: Response<seq<Row>>)
    ensures r.status in {200, 400, 401, 500}
    ensures r.status == 200 <==> Given(teamId) && user.Some? && call.Served? && Agents in tables
    ensures r.status == 200 ==> r.body.Json? && NewestFirstOrder(r.body.value)
  {
    if !Given(teamId) then Fail(400, "Team ID is required")
    else if user.None? then Fail(401, "Unauthorized")
    else
      match Selection(tables, Agents, OwnedBy("team_id", teamId.value, user.value), call)
      case Err(_) => Fail(500, "Error fetching agents")
      case Ok(rows) => Success(NewestFirst(rows))
  }

  /** `DELETE`: 400 without an id, 401 without a user, 500 when the delete fails; only a 200 removes rows. */
  function DeleteSpec(tables: Tables, id: Option<string>, user: Option<UserId>, call: CallOutcome): (h: Handled<Confirmation, Tables>)
    ensures h.response.status in {200, 400, 401, 500}
    ensures h.response.status == 200 <==> Given(id) && user.Some? && call.Served? && Agents in tables
    ensures h.response.status != 200 ==> h.state == tables
    ensures h.response.status == 200 ==>
      h.state == tables[Agents := Remaining(tables[Agents], OwnedBy("id", id.value, user.value))]
  {
    if !Given(id) then Handled(Fail(400, "Agent ID is required"), tables)
    else if user.None? then Handled(Fail(401, "Unauthorized"), tables)
    else
      var w := Deletion(tables, Agents, OwnedBy("id", id.value, user.value), call);
      if w.result.Err? then Handled(Fail(500, "Error deleting agent"), w.tables)
      else Handled(Success(Confirmation(true)), w.tables)
  }

  /**
   * `POST` checks `name` and `team_id` before it authenticates: a falsy one
   * is a 400 whoever calls. A whitespace-only name is truthy and passes.
   */
  lemma PostValidatesBeforeAuth(tables: Tables, f: AgentFields, user: Option<UserId>, generated: Row, call: CallOutcome)
    ensures PostSpec(tables, WellFormed(f), user, generated, call).response.status == 400
        <==> !Present(f.name) || !Present(f.teamId)
    ensures f.name == Some(Str("   ")) && Present(f.teamId) ==> PostSpec(tables, WellFormed(f), user, generated, call).response.status != 400
  {
  }

  /** With valid fields and no user, all three operations answer 401 and change nothing. */
  lemma UnauthenticatedGets401(tables: Tables, f: AgentFields, teamId: string, id: string, generated: Row, call: CallOutcome)
    requires Present(f.name) && Present(f.teamId) && teamId != "" && id != ""
    ensures PostSpec(tables, WellFormed(f), None, generated, call) == Handled(Fail(401, "Unauthorized"), tables)
    ensures Get(tables, Some(teamId), None, call) == Fail(401, "Unauthorized")
    ensures DeleteSpec(tables, Some(id), None, call) == Handled(Fail(401, "Unauthorized"), tables)
  {
  }

  /** A created agent carries the caller's `user_id` and the given name, team and description, and is appended. */
  lemma PostInsertsOwnedAgent(tables: Tables, f: AgentFields, user: UserId, generated: Row)
    requires Present(f.name) && Present(f.teamId) && Agents in tables
    ensures var h := PostSpec(tables, WellFormed(f), Some(user), generated, Served);
      && h.response.status == 200
      && var row := h.response.body.value;
      && row["user_id"] == Str(user)
      && row["name"] == f.name.value && row["team_id"] == f.teamId.value
      && (f.description.Some? ==> row["description"] == f.description.value)
      && h.state == tables[Agents := tables[Agents] + [row]]
  {
  }

  /** A row matches an ownership filter exactly when it has that column value and that owner. */
  lemma OwnedByMatches(row: Row, column: string, value: string, user: UserId)
    requires column != "user_id"
    ensures Matches(row, OwnedBy(column, value, user)) <==>
      column in row && "user_id" in row && row[column] == Str(value) && row["user_id"] == Str(user)
  {
    var f := OwnedBy(column, value, user);
    assert column in f && "user_id" in f;
  }

  /**
   * `GET` answers 200 with exactly the caller's agents of the team: every
   * such row as often as it is stored, no other row, newest `created_at` first.
   */
  lemma GetReturnsOwnTeamNewestFirst(tables: Tables, teamId: string, user: UserId)
    requires teamId != "" && Agents in tables
    ensures var r := Get(tables, Some(teamId), Some(user), Served);
      && r.status == 200
      && NewestFirstOrder(r.body.value)
      && multiset(r.body.value) == multiset(Matching(tables[Agents], OwnedBy("team_id", teamId, user)))
      && forall row :: row in r.body.value <==>
           row in tables[Agents] && "team_id" in row && "user_id" in row && row["team_id"] == Str(teamId) && row["user_id"] == Str(user)
  {
    var rows := Matching(tables[Agents], OwnedBy("team_id", teamId, user));
    var sorted := NewestFirst(rows);
    assert Get(tables, Some(teamId), Some(user), Served) == Success(sorted);
    forall row
      ensures row in sorted <==>
        row in tables[Agents] && "team_id" in row && "user_id" in row && row["team_id"] == Str(teamId) && row["user_id"] == Str(user)
    {
      assert row in sorted <==> row in multiset(sorted);
      assert row in rows <==> row in multiset(rows);
      OwnedByMatches(row, "team_id", teamId, user);
    }
  }

  /**
   * `DELETE` removes only the row with that id owned by the caller: every
   * row owned by someone else stays. It reports success even when nothing
   * matched.
   */
  lemma DeleteOnlyOwnAgent(tables: Tables, id: string, user: UserId)
    requires id != "" && Agents in tables
    ensures var h := DeleteSpec(tables, Some(id), Some(user), Served);
      && h.response == Success(Confirmation(true))
      && Agents in h.state
      && (forall row :: row in tables[Agents] && ("user_id" !in row || row["user_id"] != Str(user)) ==> row in h.state[Agents])
      && (forall row :: row in h.state[Agents] ==> row in tables[Agents])
  {
  }

  /** A database error is a 500 for every operation; malformed JSON in `POST` is a 500 too. */
  lemma BackendErrorsGive500(tables: Tables, f: AgentFields, teamId: string, id: string, user: UserId,
                             generated: Row, e: DbError, syntaxError: string)
    requires Present(f.name) && Present(f.teamId) && teamId != "" && id != ""
    ensures PostSpec(tables, WellFormed(f), Some(user), generated, Refused(e)) == Handled(Fail(500, "Error creating agent"), tables)
    ensures Get(tables, Some(teamId), Some(user), Refused(e)) == Fail(500, "Error fetching agents")
    ensures DeleteSpec(tables, Some(id), Some(user), Refused(e)) == Handled(Fail(500, "Error deleting agent"), tables)
    ensures PostSpec(tables, Malformed(syntaxError), Some(user), generated, Served) == Handled(Fail(500, "Error creating agent"), tables)
  {
  }

  /** `POST /api/agents` */
  method Post(store: Store, body: Parsed<AgentFields>, user: Option<UserId>, generated: Row, call: CallOutcome) returns (resp: Response<Row>)
    modifies store
    ensures Handled(resp, store.tables) == PostSpec(old(store.tables), body, user, generated, call)
  {
    if body.Malformed? {
      return Fail(500, "Error creating agent");
    }
    var f := body.value;
    if !Present(f.name) || !Present(f.teamId) {
      return Fail(400, "Name and team ID are required");
    }
    if user.None? {
      return Fail(401, "Unauthorized");
    }
    var row := store.InsertRow(Agents, Some(NewAgent(f.name.value, f.teamId.value, f.description, user.value)), generated, call);
    if row.Err? {
      return Fail(500, "Error creating agent");
    }
    resp := Success(row.value);
  }

  /** `DELETE /api/agents?id=…` */
  method Delete(store: Store, id: Option<string>, user: Option<UserId>, call: CallOutcome) returns (resp: Response<Confirmation>)
    modifies store
    ensures Handled(resp, store.tables) == DeleteSpec(old(store.tables), id, user, call)
  {
    if !Given(id) {
      return Fail(400, "Agent ID is required");
    }
    if user.None? {
      return Fail(401, "Unauthorized");
    }
    var removed := store.DeleteWhere(Agents, OwnedBy("id", id.value, user.value), call);
    if removed.Err? {
      return Fail(500, "Error deleting agent");
    }
    resp := Success(Confirmation(true));
  }
}
