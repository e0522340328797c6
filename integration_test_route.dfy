/**
 * The integration connection test: it checks only that an API key was
 * given and is not blank; no outside service is contacted.
 */
module IntegrationTestRoute {
  import opened Wrappers
  import opened Json
  import opened Http
  import opened JsString

  datatype TestRequest = TestRequest(integrationId: Option<Value>, apiKey: Option<Value>)

  /** The body `{ success: true, message: 'Connection test successful' }`. */
  datatype TestResult = TestResult(success: bool, message: string)

  const Failed := Fail<TestResult>(500, "Failed to test connection")

  function Post(body: Parsed<TestRequest>, user: Option<UserId>): (r: Response<TestResult>)
    ensures r.status in {200, 400, 401, 500}
    ensures r.status == 200 ==>
      body.WellFormed? && user.Some? && body.value.apiKey.Some? && body.value.apiKey.value.Str? && !Blank(body.value.apiKey.value.s)
  {
    if body.Malformed? then Failed
    else if !Present(body.value.integrationId) || !Present(body.value.apiKey) then
      Fail(400, "Integration ID and API key are required")
    else if user.None? then Fail(401, "Unauthorized")
    else
      match body.value.apiKey.value
      case Str(key) =>
        if Trim(key) == "" then Fail(400, "API key cannot be empty")
        else Success(TestResult(true, "Connection test successful"))
      case _ => Failed
  }

  /** Both fields are checked before the caller. */
  lemma FieldsBeforeAuth(request: TestRequest, user: Option<UserId>)
    ensures !Present(request.integrationId) || !Present(request.apiKey) ==>
      Post(WellFormed(request), user) == Fail(400, "Integration ID and API key are required")
    ensures Present(request.integrationId) && Present(request.apiKey) && user.None? ==>
      Post(WellFormed(request), user) == Fail(401, "Unauthorized")
  {
  }

  /**
   * For a known caller with an integration id and a string key, the answer
   * depends on the key alone: 400 when it is whitespace only, success
   * otherwise; nothing else is validated.
   */
  lemma BlankKeyIffRejected(id: Value, key: string, user: UserId)
    requires Truthy(id) && key != ""
    ensures Blank(key) ==> Post(WellFormed(TestRequest(Some(id), Some(Str(key)))), Some(user)) == Fail(400, "API key cannot be empty")
    ensures !Blank(key) ==> Post(WellFormed(TestRequest(Some(id), Some(Str(key)))), Some(user))
                            == Success(TestResult(true, "Connection test successful"))
  {
    var request := TestRequest(Some(id), Some(Str(key)));
    assert Present(request.integrationId) && Present(request.apiKey) && request.apiKey.value == Str(key);
    assert Post(WellFormed(request), Some(user)) == if Trim(key) == "" then Fail(400, "API key cannot be empty")
      else Success(TestResult(true, "Connection test successful"));
    TrimEmptyIffBlank(key);
  }

  /** A truthy key that is not a string has no `trim`: the request fails with 500. */
  lemma NonStringKeyFails(id: Value, key: Value, user: UserId)
    requires Truthy(id) && Truthy(key) && !key.Str?
    ensures Post(WellFormed(TestRequest(Some(id), Some(key))), Some(user)) == Failed
  {
  }

  /** Every 200 reports success. */
  lemma SuccessIsUnconditional(body: Parsed<TestRequest>, user: Option<UserId>)
    ensures var r := Post(body, user);
      r.status == 200 ==> r.body == Json(TestResult(true, "Connection test successful"))
  {
  }
}
