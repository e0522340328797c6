/**
 * The competitors endpoint: list, create, delete and rename the caller's
 * competitors. Creation and renaming insist on a name that is not blank.
 */
module CompetitorsRoute {
  import opened Wrappers
  import opened Json
  import opened Http
  import opened JsString
  import opened Backend

  const Competitors := "competitors"

  datatype CompetitorFields = CompetitorFields(name: Option<Value>, websiteUrl: Option<Value>)

  /**
   * What `!name?.trim()` makes of the `name` field. Optional chaining
   * stops only at `null` and `undefined`; any other value that is not a
   * string has no `trim` method, and calling it throws a `TypeError`.
   */
  datatype NameCheck = NoName | BlankName | NotTrimmable | Named(name: string)

  /** The `TypeError` V8 raises for `name?.trim()` on a value without `trim`. */
  const TrimTypeError := "name?.trim is not a function"

  function CheckName(name: Option<Value>): (c: NameCheck)
    ensures c.Named? <==> name.Some? && name.value.Str? && !Blank(name.value.s)
    ensures c.Named? ==> c.name == name.value.s
    ensures c == NotTrimmable <==> name.Some? && !name.value.Null? && !name.value.Str?
  {
    match name
    case None => NoName
    case Some(Null) => NoName
    case Some(Str(s)) => if Blank(s) then BlankName else Named(s)
    case Some(_) => NotTrimmable
  }

  /** On a string, the check is the source's test `!name.trim()`. */
  lemma CheckNameTrims(s: string)
    ensures CheckName(Some(Str(s))) == if Trim(s) == "" then BlankName else Named(s)
  {
    TrimEmptyIffBlank(s);
  }

  /** The row or patch sent: `JSON.stringify` drops an undefined `website_url`. */
  function WithUrl(name: string, websiteUrl: Option<Value>): (r: Row)
    ensures r.Keys == {"name"} + (if websiteUrl.Some? then {"website_url"} else {})
    ensures r["name"] == Str(name)
    ensures websiteUrl.Some? ==> r["website_url"] == websiteUrl.value
  {
    map["name" := Str(name)] + (if websiteUrl.Some? then map["website_url" := websiteUrl.value] else map[])
  }

  function ByOwner(user: UserId): Filters {
    map["user_id" := Str(user)]
  }

  function ByIdAndOwner(id: string, user: UserId): Filters {
    map["id" := Str(id), "user_id" := Str(user)]
  }

  /** `GET`: the session user's competitors, newest first. */
  function Get(tables: Tables, sessionUser: Option<string>, call: CallOutcome): (r: Response<seq<Row>>)
    ensures r.status in {200, 401, 500}
    ensures r.status == 200 <==> Given(sessionUser) && call.Served? && Competitors in tables
    ensures r.status == 200 ==> r.body.Json? && NewestFirstOrder(r.body.value)
  {
    if !Given(sessionUser) then Fail(401, "Unauthorized")
    else
      match Selection(tables, Competitors, ByOwner(sessionUser.value), call)
      case Err(_) => Fail(500, "Failed to fetch data")
      case Ok(rows) => Success(NewestFirst(rows))
  }

  /**
   * `POST`: both the session and the database must know the caller; the
   * row is owned by the database user. A body that is not JSON, or a name
   * that is not a string, ends in the catch-all 500.
   */
  function PostSpec(tables: Tables, sessionUser: Option<string>, user: Option<UserId>, body: Parsed<CompetitorFields>,
                    generated: Row, call: CallOutcome): (h: Handled<Row, Tables>)
    ensures h.response.status in {201, 400, 401, 500}
    ensures h.response.status == 201 <==>
      Given(sessionUser) && user.Some? && body.WellFormed? && CheckName(body.value.name).Named? && call.Served? && Competitors in tables
    ensures h.response.status != 201 ==> h.state == tables
  {
    if !Given(sessionUser) || user.None? then Handled(Fail(401, "Unauthorized"), tables)
    else if body.Malformed? then Handled(Fail(500, "Internal server error"), tables)
    else
      match CheckName(body.value.name)
      case NoName => Handled(Fail(400, "Name is required"), tables)
      case BlankName => Handled(Fail(400, "Name is required"), tables)
      case NotTrimmable => Handled(Fail(500, "Internal server error"), tables)
      case Named(name) => Create(tables, user.value, name, body.value.websiteUrl, generated, call)
  }

  /** The insert `POST` runs once the name is accepted: 201 with the stored row, or 500 with the error's message. */
  function Create(tables: Tables, user: UserId, name: string, websiteUrl: Option<Value>, generated: Row, call: CallOutcome): (h: Handled<Row, Tables>)
    ensures h.response.status == 201 || h.response.status == 500
    ensures h.response.status == 201 <==> call.Served? && Competitors in tables
    ensures h.response.status == 500 ==> h.state == tables
    ensures h.response.status == 201 ==> h.response.body.Json? && h.state == tables[Competitors := tables[Competitors] + [h.response.body.value]]
  {
    var row := WithUrl(name, websiteUrl) + map["user_id" := Str(user)];
    var w := Insertion(tables, Competitors, Some(row), generated, call);
    match w.result
    case Err(e) => Handled(Fail(500, e.message), w.tables)
    case Ok(stored) => Handled(Response(201, Json(stored)), w.tables)
  }

  /** `DELETE /…?id=…`: removes the caller's competitor with that id. */
  function DeleteSpec(tables: Tables, user: Option<UserId>, id: Option<string>, call: CallOutcome): (h: Handled<Confirmation, Tables>)
    ensures h.response.status in {200, 400, 401, 500}
    ensures h.response.status == 200 <==> user.Some? && Given(id) && call.Served? && Competitors in tables
    ensures h.response.status != 200 ==> h.state == tables
    ensures h.response.status == 200 ==>
      h.state == tables[Competitors := Remaining(tables[Competitors], ByIdAndOwner(id.value, user.value))]
  {
    if user.None? then Handled(Fail(401, "Unauthorized"), tables)
    else if !Given(id) then Handled(Fail(400, "ID is required"), tables)
    else
      var w := Deletion(tables, Competitors, ByIdAndOwner(id.value, user.value), call);
      match w.result
      case Err(e) => Handled(Fail(500, if e.isErrorInstance then e.message else "Failed to delete competitor"), w.tables)
      case Ok(_) => Handled(Success(Confirmation(true)), w.tables)
  }

  /**
   * `PUT /…/<id>`: the id is whatever follows the URL's last `/`; the
   * update must hit exactly one of the caller's rows.
   */
  function PutSpec(tables: Tables, user: Option<UserId>, url: string, body: Parsed<CompetitorFields>, call: CallOutcome): (h: Handled<Row, Tables>)
    ensures h.response.status in {200, 400, 401, 500}
    ensures h.response.status == 200 ==> user.Some? && LastSegment(url) != ""
    ensures h.response.status != 200 ==> h.state == tables
  {
    if user.None? then Handled(Fail(401, "Unauthorized"), tables)
    else
      var id := LastSegment(url);
      if id == "" then Handled(Fail(400, "Competitor ID is required"), tables)
      else Edit(tables, user.value, id, body, call)
  }

  /** `PUT` once the caller and the id are known: the body, then the name, then the update. */
  function Edit(tables: Tables, user: UserId, id: string, body: Parsed<CompetitorFields>, call: CallOutcome): (h: Handled<Row, Tables>)
    ensures h.response.status in {200, 400, 500}
    ensures h.response.status == 200 <==>
      body.WellFormed? && CheckName(body.value.name).Named? && call.Served? && Competitors in tables
      && |Matching(tables[Competitors], ByIdAndOwner(id, user))| == 1
    ensures h.response.status != 200 ==> h.state == tables
  {
    if body.Malformed? then Handled(Fail(500, body.syntaxError), tables)
    else
      match CheckName(body.value.name)
      case NoName => Handled(Fail(400, "Name is required"), tables)
      case BlankName => Handled(Fail(400, "Name is required"), tables)
      case NotTrimmable => Handled(Fail(500, TrimTypeError), tables)
      case Named(name) => Rename(tables, user, id, name, body.value.websiteUrl, call)
  }

  /** The update `PUT` runs once the id and the name are accepted: the single updated row, or 500 with the error's message. */
  function Rename(tables: Tables, user: UserId, id: string, name: string, websiteUrl: Option<Value>, call: CallOutcome): (h: Handled<Row, Tables>)
    ensures h.response.status == 200 || h.response.status == 500
    ensures h.response.status == 200 <==>
      call.Served? && Competitors in tables && |Matching(tables[Competitors], ByIdAndOwner(id, user))| == 1
    ensures h.response.status == 500 ==> h.state == tables
  {
    var w := SingleUpdating(tables, Competitors, Some(WithUrl(name, websiteUrl)), ByIdAndOwner(id, user), call);
    match w.result
    case Err(e) => Handled(Fail(500, e.message), w.tables)
    case Ok(row) => Handled(Success(row), w.tables)
  }

  /** Matching on id and owner means carrying both values. */
  lemma ByIdAndOwnerMatches(row: Row, id: string, user: UserId)
    ensures Matches(row, ByIdAndOwner(id, user)) <==>
      "id" in row && "user_id" in row && row["id"] == Str(id) && row["user_id"] == Str(user)
  {
    var f := ByIdAndOwner(id, user);
    assert "id" in f && "user_id" in f;
  }

  /** The names `!name?.trim()` finds falsy: missing, `null`, or a string of whitespace only. */
  predicate LacksName(f: CompetitorFields) {
    f.name.None? || f.name.value.Null? || (f.name.value.Str? && Blank(f.name.value.s))
  }

  /** `POST` refuses a missing, `null` or whitespace-only name with 400, and nothing else. */
  lemma PostRejectsBlankName(tables: Tables, user: UserId, f: CompetitorFields, generated: Row, call: CallOutcome)
    requires user != ""
    ensures PostSpec(tables, Some(user), Some(user), WellFormed(f), generated, call).response == Fail(400, "Name is required")
        <==> LacksName(f)
  {
    var h := PostSpec(tables, Some(user), Some(user), WellFormed(f), generated, call);
    if CheckName(f.name).Named? {
      assert h.response.status != 400;
    }
  }

  /** Past the caller and the id, `PUT` is decided by the body alone. */
  lemma PutWithId(tables: Tables, user: UserId, url: string, body: Parsed<CompetitorFields>, call: CallOutcome)
    requires LastSegment(url) != ""
    ensures PutSpec(tables, Some(user), url, body, call) == Edit(tables, user, LastSegment(url), body, call)
  {
  }

  /** `PUT` with an id and a usable name answers with what the single-row update makes of it. */
  lemma PutReportsUpdate(tables: Tables, user: UserId, url: string, f: CompetitorFields, name: string, call: CallOutcome)
    requires LastSegment(url) != "" && CheckName(f.name) == Named(name)
    ensures PutSpec(tables, Some(user), url, WellFormed(f), call) == Rename(tables, user, LastSegment(url), name, f.websiteUrl, call)
  {
    PutWithId(tables, user, url, WellFormed(f), call);
    EditReportsUpdate(tables, user, LastSegment(url), f, name, call);
  }

  lemma EditReportsUpdate(tables: Tables, user: UserId, id: string, f: CompetitorFields, name: string, call: CallOutcome)
    requires CheckName(f.name) == Named(name)
    ensures Edit(tables, user, id, WellFormed(f), call) == Rename(tables, user, id, name, f.websiteUrl, call)
  {
  }

  /** Once the id is known, a missing, `null` or whitespace-only name is refused with 400, and nothing else is. */
  lemma EditRejectsBlankName(tables: Tables, user: UserId, id: string, f: CompetitorFields, call: CallOutcome)
    ensures Edit(tables, user, id, WellFormed(f), call).response == Fail(400, "Name is required") <==> LacksName(f)
  {
    match CheckName(f.name)
    case Named(name) =>
      assert Edit(tables, user, id, WellFormed(f), call) == Rename(tables, user, id, name, f.websiteUrl, call);
    case _ =>
  }

  /** `PUT` with an id refuses a missing, `null` or whitespace-only name with 400, and nothing else. */
  lemma PutRejectsBlankName(tables: Tables, user: UserId, url: string, f: CompetitorFields, call: CallOutcome)
    requires LastSegment(url) != ""
    ensures PutSpec(tables, Some(user), url, WellFormed(f), call).response == Fail(400, "Name is required")
        <==> LacksName(f)
  {
    PutWithId(tables, user, url, WellFormed(f), call);
    EditRejectsBlankName(tables, user, LastSegment(url), f, call);
  }

  /** A name that is neither missing, `null` nor a string makes `trim` throw: `POST` hides the message, `PUT` returns it. */
  lemma UntrimmableNameIs500(tables: Tables, user: UserId, url: string, f: CompetitorFields, generated: Row, call: CallOutcome)
    requires user != "" && LastSegment(url) != ""
    requires f.name.Some? && !f.name.value.Null? && !f.name.value.Str?
    ensures PostSpec(tables, Some(user), Some(user), WellFormed(f), generated, call) == Handled(Fail(500, "Internal server error"), tables)
    ensures PutSpec(tables, Some(user), url, WellFormed(f), call) == Handled(Fail(500, TrimTypeError), tables)
  {
    assert CheckName(f.name) == NotTrimmable;
  }

  /** Every operation refuses a caller the database does not know, before it looks at the request. */
  lemma AuthenticationComesFirst(tables: Tables, sessionUser: Option<string>, url: string, body: Parsed<CompetitorFields>,
                                 id: Option<string>, generated: Row, call: CallOutcome)
    ensures Get(tables, None, call) == Fail(401, "Unauthorized")
    ensures Get(tables, Some(""), call) == Fail(401, "Unauthorized")
    ensures PostSpec(tables, sessionUser, None, body, generated, call) == Handled(Fail(401, "Unauthorized"), tables)
    ensures DeleteSpec(tables, None, id, call) == Handled(Fail(401, "Unauthorized"), tables)
    ensures PutSpec(tables, None, url, body, call) == Handled(Fail(401, "Unauthorized"), tables)
  {
  }

  /**
   * A created competitor belongs to the database user (not the session
   * user), keeps its name as sent, untrimmed, and is answered with 201.
   */
  lemma PostCreatesOwnedCompetitor(tables: Tables, sessionUser: string, user: UserId, f: CompetitorFields, generated: Row)
    requires sessionUser != "" && Competitors in tables
    requires f.name.Some? && f.name.value.Str? && !Blank(f.name.value.s)
    ensures var h := PostSpec(tables, Some(sessionUser), Some(user), WellFormed(f), generated, Served);
      && h.response.status == 201
      && var row := h.response.body.value;
      && row["user_id"] == Str(user) && row["name"] == f.name.value
      && (f.websiteUrl.Some? ==> row["website_url"] == f.websiteUrl.value)
      && h.state == tables[Competitors := tables[Competitors] + [row]]
  {
  }

  /** `GET` answers with every competitor of the session user, newest first, and with no other row. */
  lemma GetReturnsOwnNewestFirst(tables: Tables, user: string)
    requires user != "" && Competitors in tables
    ensures var r := Get(tables, Some(user), Served);
      && r.status == 200
      && NewestFirstOrder(r.body.value)
      && forall row :: row in r.body.value <==> row in tables[Competitors] && "user_id" in row && row["user_id"] == Str(user)
  {
    var rows := Matching(tables[Competitors], ByOwner(user));
    var sorted := NewestFirst(rows);
    assert Get(tables, Some(user), Served) == Success(sorted);
    forall row ensures row in sorted <==> row in tables[Competitors] && "user_id" in row && row["user_id"] == Str(user) {
      assert row in sorted <==> row in multiset(sorted);
      assert row in rows <==> row in multiset(rows);
      assert "user_id" in ByOwner(user);
    }
  }

  /**
   * `DELETE` removes exactly the caller's rows with that id; a row of
   * another user, or with another id, stays.
   */
  lemma DeleteOnlyOwnCompetitor(tables: Tables, user: UserId, id: string)
    requires id != "" && Competitors in tables
    ensures var h := DeleteSpec(tables, Some(user), Some(id), Served);
      && h.response == Success(Confirmation(true))
      && Competitors in h.state
      && forall row :: row in h.state[Competitors] <==>
           row in tables[Competitors] && !("id" in row && "user_id" in row && row["id"] == Str(id) && row["user_id"] == Str(user))
  {
    forall row ensures Matches(row, ByIdAndOwner(id, user)) <==>
        "id" in row && "user_id" in row && row["id"] == Str(id) && row["user_id"] == Str(user) {
      ByIdAndOwnerMatches(row, id, user);
    }
  }

  /** A database error on delete is reported with its message only when it is an `Error` object. */
  lemma DeleteErrorMessage(tables: Tables, user: UserId, id: string, e: DbError)
    requires id != ""
    ensures DeleteSpec(tables, Some(user), Some(id), Refused(e)).response
         == Fail(500, if e.isErrorInstance then e.message else "Failed to delete competitor")
  {
  }

  /**
   * `PUT …/<prefix>/<id>` with a valid name renames the caller's row with
   * that id when it is the only one, and leaves every other row as it was;
   * when no row (or more than one) matches, it fails with 500 and changes
   * nothing.
   */
  lemma PutRenamesOnlyOwnRow(tables: Tables, user: UserId, prefix: string, id: string, f: CompetitorFields)
    requires '/' !in id && id != "" && Competitors in tables
    requires f.name.Some? && f.name.value.Str? && !Blank(f.name.value.s)
    ensures var h := PutSpec(tables, Some(user), prefix + "/" + id, WellFormed(f), Served);
      var owned := Matching(tables[Competitors], ByIdAndOwner(id, user));
      && (|owned| == 1 ==>
            && h.response == Success(owned[0] + WithUrl(f.name.value.s, f.websiteUrl))
            && Competitors in h.state
            && Remaining(h.state[Competitors], ByIdAndOwner(id, user)) == Remaining(tables[Competitors], ByIdAndOwner(id, user)))
      && (|owned| != 1 ==> h == Handled(Fail(500, NotSingleRow.message), tables))
  {
    LastSegmentAfterSlash(prefix, id);
    PutReportsUpdate(tables, user, prefix + "/" + id, f, f.name.value.s, Served);
    var patch := WithUrl(f.name.value.s, f.websiteUrl);
    assert "id" !in patch && "user_id" !in patch;
    PatchedKeepsRemaining(tables[Competitors], ByIdAndOwner(id, user), patch);
  }

  /** `POST` */
  method Post(store: Store, sessionUser: Option<string>, user: Option<UserId>, body: Parsed<CompetitorFields>,
              generated: Row, call: CallOutcome) returns (resp: Response<Row>)
    modifies store
    ensures Handled(resp, store.tables) == PostSpec(old(store.tables), sessionUser, user, body, generated, call)
  {
    if !Given(sessionUser) || user.None? {
      return Fail(401, "Unauthorized");
    }
    if body.Malformed? {
      return Fail(500, "Internal server error");
    }
    var check := CheckName(body.value.name);
    if check.NoName? || check.BlankName? {
      return Fail(400, "Name is required");
    }
    if check.NotTrimmable? {
      return Fail(500, "Internal server error");
    }
    var row := WithUrl(check.name, body.value.websiteUrl) + map["user_id" := Str(user.value)];
    var stored := store.InsertRow(Competitors, Some(row), generated, call);
    if stored.Err? {
      return Fail(500, stored.error.message);
    }
    resp := Response(201, Json(stored.value));
  }

  /** `DELETE` */
  method Delete(store: Store, user: Option<UserId>, id: Option<string>, call: CallOutcome) returns (resp: Response<Confirmation>)
    modifies store
    ensures Handled(resp, store.tables) == DeleteSpec(old(store.tables), user, id, call)
  {
    if user.None? {
      return Fail(401, "Unauthorized");
    }
    if !Given(id) {
      return Fail(400, "ID is required");
    }
    var removed := store.DeleteWhere(Competitors, ByIdAndOwner(id.value, user.value), call);
    if removed.Err? {
      var e := removed.error;
      return Fail(500, if e.isErrorInstance then e.message else "Failed to delete competitor");
    }
    resp := Success(Confirmation(true));
  }

  /** `PUT` */
  method Put(store: Store, user: Option<UserId>, url: string, body: Parsed<CompetitorFields>, call: CallOutcome) returns (resp: Response<Row>)
    modifies store
    ensures Handled(resp, store.tables) == PutSpec(old(store.tables), user, url, body, call)
  {
    if user.None? {
      return Fail(401, "Unauthorized");
    }
    var id := LastSegment(url);
    if id == "" {
      return Fail(400, "Competitor ID is required");
    }
    if body.Malformed? {
      return Fail(500, body.syntaxError);
    }
    var check := CheckName(body.value.name);
    if check.NoName? || check.BlankName? {
      return Fail(400, "Name is required");
    }
    if check.NotTrimmable? {
      return Fail(500, TrimTypeError);
    }
    var updated := store.UpdateOne(Competitors, Some(WithUrl(check.name, body.value.websiteUrl)), ByIdAndOwner(id, user.value), call);
    if updated.Err? {
      return Fail(500, updated.error.message);
    }
    resp := Success(updated.value);
  }
}
