/**
 * The HubSpot endpoint: reads the integration's API key, lists the HubSpot
 * contacts with it, and flattens each into the dashboard's contact shape.
 */
module HubspotRoute {
  import opened Wrappers
  import opened Json
  import opened Http
  import opened JsString
  import opened Backend

  const Integrations := "integrations"

  /**
   * A contact as HubSpot lists it. A property that is absent or `null` is
   * absent from `properties`.
   */
  datatype HubspotContact = HubspotContact(id: Value, properties: map<string, string>)

  /** How the contacts request ends. */
  datatype ContactsReply =
    | Results(results: seq<HubspotContact>)  // a 2xx body with `results`
    | NoResults                              // a 2xx body without `results`
    | NotOk(message: Option<string>)         // another status; the `message` of its JSON body
    | Threw(error: string)                   // `fetch` or `response.json()` threw this `Error`

  /** The dashboard's contact. */
  datatype Contact = Contact(id: Value, name: string, email: string, company: string, phone: string)

  /** `contact.properties[key] || ''` */
  function Property(properties: map<string, string>, key: string): (r: string)
    ensures key in properties ==> r == properties[key]
    ensures key !in properties ==> r == ""
  {
    if key in properties then properties[key] else ""
  }

  /** `` `${firstname || ''} ${lastname || ''}`.trim() `` */
  function FullName(properties: map<string, string>): (r: string)
    ensures r == [] || (!IsWhitespace(r[0]) && !IsWhitespace(r[|r| - 1]))
    ensures |r| <= |Property(properties, "firstname")| + 1 + |Property(properties, "lastname")|
  {
    Trim(Property(properties, "firstname") + " " + Property(properties, "lastname"))
  }

  function ToContact(c: HubspotContact): (r: Contact)
    ensures r.id == c.id
    ensures r.email == Property(c.properties, "email")
    ensures r.company == Property(c.properties, "company")
    ensures r.phone == Property(c.properties, "phone")
    ensures r.name == Trim(Property(c.properties, "firstname") + " " + Property(c.properties, "lastname"))
    ensures r.name == [] || (!IsWhitespace(r.name[0]) && !IsWhitespace(r.name[|r.name| - 1]))
  {
    Contact(c.id, FullName(c.properties), Property(c.properties, "email"),
            Property(c.properties, "company"), Property(c.properties, "phone"))
  }

  /** `data.results.map(...)`: one contact per result, in order. */
  function ToContacts(results: seq<HubspotContact>): (r: seq<Contact>)
    ensures |r| == |results|
    ensures forall i :: 0 <= i < |r| ==> r[i] == ToContact(results[i])
  {
    if results == [] then [] else [ToContact(results[0])] + ToContacts(results[1..])
  }

  /** The stored key, when the lookup finds exactly one integration whose `api_key` is truthy. */
  function ApiKey(tables: Tables, integrationId: Value, call: CallOutcome): (r: Option<Value>)
    ensures r.Some? <==> (call.Served? && Integrations in tables &&
      var found := Matching(tables[Integrations], map["id" := integrationId]);
      |found| == 1 && "api_key" in found[0] && Truthy(found[0]["api_key"]))
    ensures r.Some? ==> r.value == Matching(tables[Integrations], map["id" := integrationId])[0]["api_key"]
    ensures r.Some? ==> Truthy(r.value)
  {
    match Selection(tables, Integrations, map["id" := integrationId], call)
    case Err(_) => None
    case Ok(rows) =>
      if |rows| == 1 && "api_key" in rows[0] && Truthy(rows[0]["api_key"]) then Some(rows[0]["api_key"]) else None
  }

  /**
   * `POST`, answering `{ contacts }`. `fetchContacts` is the HubSpot request
   * sent with `Bearer <api_key>`.
   */
  function Post(tables: Tables, body: Parsed<Option<Value>>, user: Option<UserId>, call: CallOutcome,
                fetchContacts: Value -> ContactsReply): (r: Response<seq<Contact>>)
    ensures r.status in {200, 400, 401, 500}
    ensures r.status == 200 ==>
      body.WellFormed? && Present(body.value) && user.Some? && ApiKey(tables, body.value.value, call).Some?
  {
    if body.Malformed? then Fail(500, body.syntaxError)
    else if !Present(body.value) then Fail(400, "Integration ID is required")
    else if user.None? then Fail(401, "Unauthorized")
    else
      match ApiKey(tables, body.value.value, call)
      case None => Fail(500, "Failed to get API key")
      case Some(key) =>
        match fetchContacts(key)
        case Threw(error) => Fail(500, error)
        case NotOk(message) => Fail(500, if Given(message) then message.value else "HubSpot API error")
        case NoResults => Fail(500, ReadOfUndefined("map"))
        case Results(results) => Success(ToContacts(results))
  }

  /** A first and a last name with no surrounding blanks are joined by one space. */
  lemma FullNameJoinsParts(properties: map<string, string>, first: string, last: string)
    requires properties.Keys >= {"firstname", "lastname"} && properties["firstname"] == first && properties["lastname"] == last
    requires first != [] && !IsWhitespace(first[0]) && !IsWhitespace(first[|first| - 1])
    requires last != [] && !IsWhitespace(last[0]) && !IsWhitespace(last[|last| - 1])
    ensures FullName(properties) == first + " " + last
  {
    var joined := first + " " + last;
    assert joined[0] == first[0] && joined[|joined| - 1] == last[|last| - 1];
    TrimKeepsTrimmed(joined);
  }

  /** A missing part leaves no stray space, and a contact without names gets the empty name. */
  lemma FullNameWithMissingParts(properties: map<string, string>)
    ensures "firstname" !in properties && "lastname" !in properties ==> FullName(properties) == ""
    ensures var first := Property(properties, "firstname");
      "lastname" !in properties && first != [] && !IsWhitespace(first[0]) && !IsWhitespace(first[|first| - 1])
      ==> FullName(properties) == first
    ensures var last := Property(properties, "lastname");
      "firstname" !in properties && last != [] && !IsWhitespace(last[0]) && !IsWhitespace(last[|last| - 1])
      ==> FullName(properties) == last
  {
    var first, last := Property(properties, "firstname"), Property(properties, "lastname");
    if "firstname" !in properties && "lastname" !in properties {
      TrimEmptyIffBlank(" ");
      assert "" + " " + "" == " ";
    }
    if "lastname" !in properties && first != [] && !IsWhitespace(first[0]) && !IsWhitespace(first[|first| - 1]) {
      TrimDropsTrailingSpace(first);
      assert first + " " + "" == first + " ";
    }
    if "firstname" !in properties && last != [] && !IsWhitespace(last[0]) && !IsWhitespace(last[|last| - 1]) {
      TrimDropsLeadingSpace(last);
      assert "" + " " + last == " " + last;
    }
  }

  /** Flattening distributes over concatenation, so contacts keep HubSpot's order. */
  lemma {:induction false} ToContactsAppend(a: seq<HubspotContact>, b: seq<HubspotContact>)
    ensures ToContacts(a + b) == ToContacts(a) + ToContacts(b)
  {
    if a == [] {
      assert a + b == b;
    } else {
      assert (a + b)[0] == a[0];
      assert (a + b)[1..] == a[1..] + b;
      ToContactsAppend(a[1..], b);
    }
  }

  /** The integration id is checked before the caller, and the caller before the key. */
  lemma GuardOrder(tables: Tables, id: Option<Value>, user: Option<UserId>, call: CallOutcome, fetchContacts: Value -> ContactsReply)
    ensures !Present(id) ==> Post(tables, WellFormed(id), user, call, fetchContacts) == Fail(400, "Integration ID is required")
    ensures Present(id) ==> Post(tables, WellFormed(id), None, call, fetchContacts) == Fail(401, "Unauthorized")
  {
  }

  /**
   * Without exactly one integration row holding a truthy key (or when the
   * lookup fails) the request fails with 500 and HubSpot is not called.
   */
  lemma NoKeyIs500(tables: Tables, id: Value, user: UserId, call: CallOutcome, fetchContacts: Value -> ContactsReply)
    requires Truthy(id)
    requires call.Refused? || Integrations !in tables || |Matching(tables[Integrations], map["id" := id])| != 1
    ensures Post(tables, WellFormed(Some(id)), Some(user), call, fetchContacts) == Fail(500, "Failed to get API key")
  {
  }

  /**
   * With the stored key, HubSpot's contacts are answered in its order, one
   * flattened contact each; a thrown error's message is the 500, and a body
   * without `results` ends in the `TypeError` of reading `map`.
   */
  lemma ContactsListed(tables: Tables, id: Value, user: UserId, fetchContacts: Value -> ContactsReply, key: Value)
    requires Truthy(id) && ApiKey(tables, id, Served) == Some(key)
    ensures forall rs :: fetchContacts(key) == Results(rs) ==>
      Post(tables, WellFormed(Some(id)), Some(user), Served, fetchContacts) == Success(ToContacts(rs))
    ensures forall e :: fetchContacts(key) == Threw(e) ==>
      Post(tables, WellFormed(Some(id)), Some(user), Served, fetchContacts) == Fail(500, e)
    ensures fetchContacts(key) == NoResults ==>
      Post(tables, WellFormed(Some(id)), Some(user), Served, fetchContacts) == Fail(500, ReadOfUndefined("map"))
  {
  }

  /** A refused HubSpot request reports its body's `message`, or a fixed text without one. */
  lemma HubspotErrorMessage(tables: Tables, id: Value, user: UserId, fetchContacts: Value -> ContactsReply, key: Value)
    requires Truthy(id) && ApiKey(tables, id, Served) == Some(key)
    ensures fetchContacts(key) == NotOk(None) ==>
      Post(tables, WellFormed(Some(id)), Some(user), Served, fetchContacts) == Fail(500, "HubSpot API error")
    ensures fetchContacts(key) == NotOk(Some("")) ==>
      Post(tables, WellFormed(Some(id)), Some(user), Served, fetchContacts) == Fail(500, "HubSpot API error")
    ensures forall m :: m != "" && fetchContacts(key) == NotOk(Some(m)) ==>
      Post(tables, WellFormed(Some(id)), Some(user), Served, fetchContacts) == Fail(500, m)
  {
  }
}
