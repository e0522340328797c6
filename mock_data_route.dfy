/**
 * The mock-data endpoint: sample records for five integrations, looked up
 * by the lower-cased `source` of the request.
 */
module MockDataRoute {
  import opened Wrappers
  import opened Json
  import opened Http
  import opened JsString

  /** One record: its fields in declaration order. */
  datatype Field = Field(key: string, value: Value)
  type Item = seq<Field>

  /** An integration's sample data: an object with one array-valued key. */
  datatype SourceData = SourceData(collection: string, items: seq<Item>)

  const Netsuite := SourceData("products", [
    [Field("id", Num(1)), Field("name", Str("Enterprise Software License")), Field("price", Decimal("999.99"))],
    [Field("id", Num(2)), Field("name", Str("Cloud Storage Plan")), Field("price", Decimal("199.99"))],
    [Field("id", Num(3)), Field("name", Str("Support Package")), Field("price", Decimal("299.99"))]])

  const Clickup := SourceData("tasks", [
    [Field("id", Num(1)), Field("title", Str("Implement OAuth")), Field("status", Str("In Progress"))],
    [Field("id", Num(2)), Field("title", Str("Update Documentation")), Field("status", Str("Todo"))],
    [Field("id", Num(3)), Field("title", Str("Fix Bug #123")), Field("status", Str("Done"))]])

  const Hubspot := SourceData("contacts", [
    [Field("id", Num(1)), Field("name", Str("John Doe")), Field("email", Str("john@example.com"))],
    [Field("id", Num(2)), Field("name", Str("Jane Smith")), Field("email", Str("jane@example.com"))],
    [Field("id", Num(3)), Field("name", Str("Bob Wilson")), Field("email", Str("bob@example.com"))]])

  const Youtube := SourceData("videos", [
    [Field("id", Str("abc123")), Field("title", Str("Getting Started with Next.js")), Field("views", Num(15000)), Field("likes", Num(850))],
    [Field("id", Str("def456")), Field("title", Str("React Server Components Tutorial")), Field("views", Num(12000)), Field("likes", Num(720))],
    [Field("id", Str("ghi789")), Field("title", Str("Building with Supabase")), Field("views", Num(8500)), Field("likes", Num(490))]])

  const Brightdata := SourceData("proxies", [
    [Field("id", Str("proxy-1")), Field("region", Str("US-East")), Field("status", Str("active")), Field("bandwidth", Str("1.2 GB"))],
    [Field("id", Str("proxy-2")), Field("region", Str("EU-West")), Field("status", Str("active")), Field("bandwidth", Str("0.8 GB"))],
    [Field("id", Str("proxy-3")), Field("region", Str("Asia-Pacific")), Field("status", Str("inactive")), Field("bandwidth", Str("0.5 GB"))]])

  /** `mockData`: the sample data of each integration, by its lower-case name. */
  const MockData: map<string, SourceData> := map[
    "netsuite" := Netsuite,
    "clickup" := Clickup,
    "hubspot" := Hubspot,
    "youtube" := Youtube,
    "brightdata" := Brightdata
  ]

  /** The integrations that have sample data. */
  const Sources: set<string> := {"netsuite", "clickup", "hubspot", "youtube", "brightdata"}

  lemma MockDataKeys()
    ensures MockData.Keys == Sources
  {
  }

  /** `__proto__` and `constructor` are inherited by `mockData`, not its own keys. */
  lemma InheritedOnly(key: string)
    requires key == "__proto__" || key == "constructor"
    ensures key in ObjectPrototypeMembers && key !in Sources
  {
  }

  /** The lower-case forms of the sources the lemmas below send. */
  lemma HubspotLowered()
    ensures ToLower("hubspot") == "hubspot"
  {
    var k := "hubspot";
    assert forall i :: 0 <= i < |k| ==> ToLowerChar(k[i]) == k[i];
  }

  lemma ProtoLowered()
    ensures ToLower("__PROTO__") == "__proto__"
  {
    var upper, lower := "__PROTO__", "__proto__";
    assert forall i :: 0 <= i < |upper| ==> ToLowerChar(upper[i]) == lower[i];
  }

  lemma ConstructorLowered()
    ensures ToLower("constructor") == "constructor"
  {
    var k := "constructor";
    assert forall i :: 0 <= i < |k| ==> ToLowerChar(k[i]) == k[i];
  }

  /** What the 200 carries: an integration's data, or the `{}` that `Object.prototype` serialises to. */
  datatype Payload = Data(data: SourceData) | EmptyObject

  const NotFound := Fail<Payload>(404, "No data available for this integration")
  const Failed := Fail<Payload>(500, "Failed to fetch mock data")

  /**
   * `mockData[key]` on the object literal: an own key, else a property
   * inherited from `Object.prototype`, else `undefined`.
   */
  datatype Lookup = Own(data: SourceData) | Inherited(name: string) | Undefined

  function LookupAsWritten(key: string): (l: Lookup)
    ensures l.Own? <==> key in MockData
    ensures l.Inherited? <==> key !in MockData && key in ObjectPrototypeMembers
  {
    if key in MockData then Own(MockData[key])
    else if key in ObjectPrototypeMembers then Inherited(key)
    else Undefined
  }

  /**
   * The steps `POST` shares before the lookup: the body must hold a truthy
   * `source`, the caller must be known, and `source.toLowerCase()` must
   * not throw. Yields the key, or the response that ends the request.
   */
  function SourceKey(body: Parsed<Option<Value>>, user: Option<UserId>): (r: Result<string, Response<Payload>>)
    ensures r.Ok? <==> body.WellFormed? && Present(body.value) && user.Some? && body.value.value.Str?
    ensures r.Ok? ==> r.value == ToLower(body.value.value.s)
    ensures r.Err? ==> r.error.status in {400, 401, 500}
  {
    if body.Malformed? then Err(Failed)
    else if !Present(body.value) then Err(Fail(400, "Source is required"))
    else if user.None? then Err(Fail(401, "Unauthorized"))
    else if !body.value.value.Str? then Err(Failed)
    else Ok(ToLower(body.value.value.s))
  }

  /**
   * `POST` as written. An inherited `__proto__` is truthy and serialises as
   * `{}`; the other inherited members are functions, which JSON cannot
   * serialise, so building the response throws.
   */
  function PostAsWritten(body: Parsed<Option<Value>>, user: Option<UserId>): (r: Response<Payload>)
    ensures r.status in {200, 400, 401, 404, 500}
    ensures r.status == 200 && r.body == Json(EmptyObject) ==> SourceKey(body, user) == Ok("__proto__")
  {
    match SourceKey(body, user)
    case Err(response) => response
    case Ok(key) =>
      match LookupAsWritten(key)
      case Own(data) => Success(Data(data))
      case Inherited(name) => if name == "__proto__" then Success(EmptyObject) else Failed
      case Undefined => NotFound
  }

  /** `POST` with the lookup restricted to the five integrations, as the 404 branch intends. */
  function Post(body: Parsed<Option<Value>>, user: Option<UserId>): (r: Response<Payload>)
    ensures r.status in {200, 400, 401, 404, 500}
    ensures r.status == 200 ==> r.body.Json? && r.body.value.Data?
    ensures r.status == 404 <==> SourceKey(body, user).Ok? && SourceKey(body, user).value !in MockData
  {
    match SourceKey(body, user)
    case Err(response) => response
    case Ok(key) => if key in MockData then Success(Data(MockData[key])) else NotFound
  }

  /** `source` is checked before the caller: a missing or falsy one is 400 for anybody. */
  lemma SourceBeforeAuth(source: Option<Value>, user: Option<UserId>)
    ensures !Present(source) ==> Post(WellFormed(source), user) == Fail(400, "Source is required")
    ensures Present(source) ==> Post(WellFormed(source), None) == Fail(401, "Unauthorized")
  {
  }

  /** The lookup ignores case: a source and its lower-case spelling get the same answer. */
  lemma CaseInsensitive(s: string, user: Option<UserId>)
    ensures Post(WellFormed(Some(Str(s))), user) == Post(WellFormed(Some(Str(ToLower(s)))), user)
    ensures PostAsWritten(WellFormed(Some(Str(s))), user) == PostAsWritten(WellFormed(Some(Str(ToLower(s)))), user)
  {
    ToLowerIdempotent(s);
    if s == "" {
      assert ToLower(s) == "";
    }
  }

  /** Exactly the five integrations, in any case, have data; every other source is 404. */
  lemma OnlyKnownSourcesAnswer(s: string, user: UserId)
    requires s != ""
    ensures ToLower(s) in MockData ==> Post(WellFormed(Some(Str(s))), Some(user)) == Success(Data(MockData[ToLower(s)]))
    ensures ToLower(s) !in MockData ==> Post(WellFormed(Some(Str(s))), Some(user)) == NotFound
  {
    StringSourceKey(s, user);
    AnswerByKey(WellFormed(Some(Str(s))), Some(user), ToLower(s));
  }

  /** A non-empty string source from a known caller is looked up by its lower-case form. */
  lemma StringSourceKey(s: string, user: UserId)
    requires s != ""
    ensures SourceKey(WellFormed(Some(Str(s))), Some(user)) == Ok(ToLower(s))
  {
  }

  /** Past the shared steps, `POST` answers by the key alone. */
  lemma AnswerByKey(body: Parsed<Option<Value>>, user: Option<UserId>, key: string)
    requires SourceKey(body, user) == Ok(key)
    ensures key in MockData ==> Post(body, user) == Success(Data(MockData[key]))
    ensures key !in MockData ==> Post(body, user) == NotFound
  {
  }

  /** The version as written answers like the intended one whenever the key is not an `Object.prototype` member. */
  lemma AsWrittenAgreesOffPrototype(body: Parsed<Option<Value>>, user: Option<UserId>)
    requires body.WellFormed? && body.value.Some? && body.value.value.Str? ==> ToLower(body.value.value.s) !in ObjectPrototypeMembers
    ensures PostAsWritten(body, user) == Post(body, user)
  {
  }

  /** As written, `POST` answers by the key alone too, inherited members included. */
  lemma AsWrittenByKey(body: Parsed<Option<Value>>, user: Option<UserId>, key: string)
    requires SourceKey(body, user) == Ok(key)
    ensures key in MockData ==> PostAsWritten(body, user) == Success(Data(MockData[key]))
    ensures key !in MockData && key in ObjectPrototypeMembers ==>
      PostAsWritten(body, user) == if key == "__proto__" then Success(EmptyObject) else Failed
    ensures key !in MockData && key !in ObjectPrototypeMembers ==> PostAsWritten(body, user) == NotFound
  {
  }

  /** `hubspot` answers with its three contacts. */
  lemma HubspotHasContacts(user: UserId)
    ensures var r := Post(WellFormed(Some(Str("hubspot"))), Some(user));
      r.status == 200 && r.body.value.data.collection == "contacts" && |r.body.value.data.items| == 3
  {
    var k := "hubspot";
    HubspotLowered();
    StringSourceKey(k, user);
    AnswerByKey(WellFormed(Some(Str(k))), Some(user), k);
  }

  /** A source that is truthy but not a string has no `toLowerCase`, and the request fails with 500. */
  lemma NonStringSourceFails(user: UserId)
    ensures Post(WellFormed(Some(Num(7))), Some(user)) == Failed
    ensures Post(WellFormed(Some(Bool(true))), Some(user)) == Failed
  {
  }

  /**
   * As written, `{"source": "__PROTO__"}` (in any case) is answered 200
   * with `{}`; the intended lookup answers it with 404.
   */
  lemma ProtoSourceAsWritten(user: UserId)
    ensures PostAsWritten(WellFormed(Some(Str("__PROTO__"))), Some(user)) == Success(EmptyObject)
    ensures Post(WellFormed(Some(Str("__PROTO__"))), Some(user)) == NotFound
  {
    var upper, proto := "__PROTO__", "__proto__";
    ProtoLowered();
    StringSourceKey(upper, user);
    MockDataKeys();
    InheritedOnly(proto);
    AsWrittenByKey(WellFormed(Some(Str(upper))), Some(user), proto);
    AnswerByKey(WellFormed(Some(Str(upper))), Some(user), proto);
  }

  /** As written, `{"source": "constructor"}` ends in 500; the intended lookup answers it with 404. */
  lemma ConstructorSourceAsWritten(user: UserId)
    ensures PostAsWritten(WellFormed(Some(Str("constructor"))), Some(user)) == Failed
    ensures Post(WellFormed(Some(Str("constructor"))), Some(user)) == NotFound
  {
    var ctor := "constructor";
    ConstructorLowered();
    StringSourceKey(ctor, user);
    MockDataKeys();
    InheritedOnly(ctor);
    AsWrittenByKey(WellFormed(Some(Str(ctor))), Some(user), ctor);
    AnswerByKey(WellFormed(Some(Str(ctor))), Some(user), ctor);
  }
}
