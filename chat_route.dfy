/**
 * The chat endpoint: validates the request, authenticates, and forwards the
 * conversation to OpenAI, Claude or Perplexity, answering with the first
 * reply as an assistant message.
 */
module ChatRoute {
  import opened Wrappers
  import opened Json
  import opened Http
  import opened ValidateEnv

  /** The OpenAI models the route accepts for chat. */
  const SupportedOpenAIModels: seq<string> := ["gpt-4-turbo-preview", "gpt-4", "gpt-3.5-turbo", "gpt-3.5-turbo-16k"]

  /** `supportedModels.includes(modelId)`: strict equality, so only those four strings. */
  function IsOpenAIChatModel(model: Value): (r: bool)
    ensures r <==> model.Str? && model.s in {"gpt-4-turbo-preview", "gpt-4", "gpt-3.5-turbo", "gpt-3.5-turbo-16k"}
  {
    model.Str? && model.s in SupportedOpenAIModels
  }

  /** The variable the OpenAI client reads for its key when it is given none. */
  const SdkDefaultKey := "OPENAI_API_KEY"

  /**
   * The module builds its OpenAI client when it loads, with
   * `PROVIDER_OPENAI_API_KEY` as the key. Given an undefined key the client
   * falls back to `OPENAI_API_KEY`, and with neither variable defined its
   * constructor throws, so the module never loads. The Anthropic client
   * does not check its key until a request is made.
   */
  predicate ClientsBuilt(env: Env) {
    OpenAIKey in env || SdkDefaultKey in env
  }

  /** What every request gets when the module failed to load: the framework's 500, with no body of the route's. */
  const LoadFailure: Response<ChatReply> := Response(500, FrameworkError)

  datatype Message = Message(role: string, content: string)

  /** The request body; a field absent from the JSON is `None`. */
  datatype ChatRequest = ChatRequest(messages: Option<seq<Message>>, provider: Option<Value>, model: Option<Value>)

  /** `!body.messages?.length || !body.provider || !body.model` */
  predicate MissingFields(body: ChatRequest) {
    body.messages.None? || body.messages.value == [] || !Present(body.provider) || !Present(body.model)
  }

  /** What the Claude SDK is asked for. */
  datatype ClaudeCall = ClaudeCall(model: Value, maxTokens: int, messages: seq<Message>)

  datatype ContentBlock = TextBlock(text: string) | OtherBlock(kind: string)

  /** What the Perplexity endpoint is sent: the bearer header and the JSON body. */
  datatype PerplexityCall = PerplexityCall(authorization: string, model: Value, messages: seq<Message>)

  /** The decoded Perplexity response: the `choices[i].message.content`s, or a body with no `choices`. */
  datatype PerplexityBody = Choices(contents: seq<Value>) | NoChoices

  /**
   * The three providers as the route sees them: each returns its reply or
   * the message of the `Error` it throws. An OpenAI completion is the list
   * of its choices' `message.content` (a string or `null`).
   */
  datatype Providers = Providers(
    openai: (Value, seq<Message>) -> Result<seq<Value>, string>,
    claude: ClaudeCall -> Result<seq<ContentBlock>, string>,
    perplexity: PerplexityCall -> Result<PerplexityBody, string>)

  /** The success body `{ role: 'assistant', content }`. */
  datatype ChatReply = ChatReply(role: string, content: Value)

  /** Claude accepts only two roles: `'user'` stays, every other role is sent as `'assistant'`. */
  function ClaudeRole(role: string): (r: string)
    ensures r == "user" || r == "assistant"
    ensures r == "user" <==> role == "user"
  {
    if role == "user" then "user" else "assistant"
  }

  function ClaudeMessages(messages: seq<Message>): (r: seq<Message>)
    ensures |r| == |messages|
    ensures forall i :: 0 <= i < |r| ==> r[i] == Message(ClaudeRole(messages[i].role), messages[i].content)
  {
    if messages == [] then [] else [Message(ClaudeRole(messages[0].role), messages[0].content)] + ClaudeMessages(messages[1..])
  }

  /** The first choice's content, or the `TypeError` reading `message` of the missing first choice. */
  function FirstChoice(choices: seq<Value>): (r: Result<Value, string>)
    ensures r.Ok? <==> |choices| > 0
    ensures r.Ok? ==> r.value == choices[0]
    ensures r.Err? ==> r.error == ReadOfUndefined("message")
  {
    if |choices| == 0 then Err(ReadOfUndefined("message")) else Ok(choices[0])
  }

  /** `content[0].type === 'text' ? content[0].text : ''` */
  function FirstText(blocks: seq<ContentBlock>): (r: Result<Value, string>)
    ensures r.Ok? <==> |blocks| > 0
    ensures r.Ok? ==> r.value.Str? && (blocks[0].TextBlock? ==> r.value.s == blocks[0].text)
    ensures r.Err? ==> r.error == ReadOfUndefined("type")
  {
    if |blocks| == 0 then Err(ReadOfUndefined("type"))
    else if blocks[0].TextBlock? then Ok(Str(blocks[0].text))
    else Ok(Str(""))
  }

  /** A provider's outcome as the response: the reply, or a 500 carrying the thrown message. */
  function Answer(content: Result<Value, string>): (r: Response<ChatReply>)
    ensures AssistantOrError(r)
    ensures content.Ok? ==> r == Success(ChatReply("assistant", content.value))
    ensures content.Err? ==> r == Fail(500, content.error)
  {
    match content
    case Ok(c) => Success(ChatReply("assistant", c))
    case Err(message) => Fail(500, message)
  }

  /**
   * `POST`, once the module has loaded: validation, then authentication,
   * then the provider; a thrown error's message is the 500.
   */
  function Post(env: Env, providers: Providers, body: Parsed<ChatRequest>, user: Option<UserId>): (r: Response<ChatReply>)
    ensures AssistantOrError(r)
    ensures !ClientsBuilt(env) ==> r == LoadFailure
    ensures r.status == 200 ==> ClientsBuilt(env) && body.WellFormed? && !MissingFields(body.value) && user.Some?
    ensures r.status == 401 <==> ClientsBuilt(env) && body.WellFormed? && !MissingFields(body.value) && user.None?
  {
    if !ClientsBuilt(env) then LoadFailure
    else if body.Malformed? then Fail(500, body.syntaxError)
    else if MissingFields(body.value) then Fail(400, "Missing required fields")
    else if user.None? then Fail(401, "Unauthorized")
    else Ask(env, providers, body.value.provider.value, body.value.model.value, body.value.messages.value)
  }

  /** The `switch (provider)` of `POST`, once the request is valid and the caller known. */
  function Ask(env: Env, providers: Providers, provider: Value, model: Value, messages: seq<Message>): (r: Response<ChatReply>)
    ensures AssistantOrError(r) && r.status != 401
    ensures r.status == 400 && provider in {Str("openai"), Str("claude"), Str("perplexity")} ==>
      provider == Str("openai") && !IsOpenAIChatModel(model)
  {
    match provider
    case Str("openai") => AskOpenAI(env, providers, model, messages)
    case Str("claude") => AskClaude(env, providers, model, messages)
    case Str("perplexity") => AskPerplexity(env, providers, model, messages)
    case _ => Fail(400, "Unsupported provider")
  }

  /** `case 'openai'`: the key is checked before the model. */
  function AskOpenAI(env: Env, providers: Providers, model: Value, messages: seq<Message>): (r: Response<ChatReply>)
    ensures AssistantOrError(r)
  {
    if !IsSet(env, OpenAIKey) then Fail(500, "OpenAI API key not configured")
    else if !IsOpenAIChatModel(model) then Fail(400, "Selected model does not support chat or is not available")
    else
      match providers.openai(model, messages)
      case Err(message) => Fail(500, message)
      case Ok(choices) => Answer(FirstChoice(choices))
  }

  /** `case 'claude'`: at most 1000 tokens, roles normalised. */
  function AskClaude(env: Env, providers: Providers, model: Value, messages: seq<Message>): (r: Response<ChatReply>)
    ensures AssistantOrError(r)
  {
    if !IsSet(env, ClaudeKey) then Fail(500, "Claude API key not configured")
    else
      match providers.claude(ClaudeCall(model, 1000, ClaudeMessages(messages)))
      case Err(message) => Fail(500, message)
      case Ok(blocks) => Answer(FirstText(blocks))
  }

  /** `case 'perplexity'`: a bearer token from the environment. */
  function AskPerplexity(env: Env, providers: Providers, model: Value, messages: seq<Message>): (r: Response<ChatReply>)
    ensures AssistantOrError(r)
  {
    if !IsSet(env, PerplexityKey) then Fail(500, "Perplexity API key not configured")
    else
      match providers.perplexity(PerplexityCall("Bearer " + env[PerplexityKey], model, messages))
      case Err(message) => Fail(500, message)
      case Ok(NoChoices) => Fail(500, ReadOfUndefined("0"))
      case Ok(Choices(contents)) => Answer(FirstChoice(contents))
  }


  /** The roles sent to Claude are only ever `'user'` or `'assistant'`, and a user message keeps its role. */
  lemma ClaudeRolesNormalised(messages: seq<Message>)
    ensures forall m :: m in ClaudeMessages(messages) ==> m.role == "user" || m.role == "assistant"
    ensures forall i :: 0 <= i < |messages| ==> (ClaudeMessages(messages)[i].role == "user" <==> messages[i].role == "user")
    ensures ClaudeMessages(ClaudeMessages(messages)) == ClaudeMessages(messages)
  {
    var once := ClaudeMessages(messages);
    forall m | m in once ensures m.role == "user" || m.role == "assistant" {
      var i :| 0 <= i < |once| && once[i] == m;
    }
    var twice := ClaudeMessages(once);
    forall i | 0 <= i < |once| ensures twice[i] == once[i] {
      assert ClaudeRole(once[i].role) == once[i].role;
    }
  }

  /** The fields are checked before the caller: a request missing one is a 400 for anybody. */
  lemma ValidationBeforeAuth(env: Env, providers: Providers, body: ChatRequest, user: Option<UserId>)
    requires ClientsBuilt(env)
    ensures MissingFields(body) ==> Post(env, providers, WellFormed(body), user) == Fail(400, "Missing required fields")
    ensures !MissingFields(body) && user.None? ==> Post(env, providers, WellFormed(body), user) == Fail(401, "Unauthorized")
  {
  }

  /** Any provider other than the three strings is refused with 400, whatever else the request holds. */
  lemma UnsupportedProviderRejected(env: Env, providers: Providers, body: ChatRequest, user: UserId)
    requires ClientsBuilt(env) && !MissingFields(body)
    requires body.provider.value !in {Str("openai"), Str("claude"), Str("perplexity")}
    ensures Post(env, providers, WellFormed(body), Some(user)) == Fail(400, "Unsupported provider")
  {
  }

  /**
   * For OpenAI the key is checked before the model: once the module has
   * loaded, an empty `PROVIDER_OPENAI_API_KEY`, or an absent one with
   * `OPENAI_API_KEY` defined, is a 500 even for an unsupported model; with
   * the key set, an unsupported model is a 400 and the provider is never asked.
   */
  lemma OpenAIKeyBeforeModel(env: Env, providers: Providers, body: ChatRequest, user: UserId)
    requires ClientsBuilt(env) && !MissingFields(body) && body.provider.value == Str("openai")
    ensures !IsSet(env, OpenAIKey) ==> Post(env, providers, WellFormed(body), Some(user)) == Fail(500, "OpenAI API key not configured")
    ensures IsSet(env, OpenAIKey) && !IsOpenAIChatModel(body.model.value) ==>
      Post(env, providers, WellFormed(body), Some(user)) == Fail(400, "Selected model does not support chat or is not available")
  {
  }

  /** A 200 carrying an assistant message, or an error status carrying an error. */
  predicate AssistantOrError(r: Response<ChatReply>) {
    && (r.status == 200 || r.status == 400 || r.status == 401 || r.status == 500)
    && (r.status == 200 <==> r.body.Json?)
    && (r.status == 200 ==> r.body.value.role == "assistant")
  }

  /** Every 200 is an assistant message, and every other status is 400, 401 or 500. */
  lemma RepliesAreAssistantMessages(env: Env, providers: Providers, body: Parsed<ChatRequest>, user: Option<UserId>)
    ensures AssistantOrError(Post(env, providers, body, user))
  {
  }




  /**
   * Claude is sent the model, at most 1000 tokens and the normalised roles;
   * its first block's text is the reply, and a first block of another kind
   * gives empty content.
   */
  lemma ClaudeExchange(env: Env, providers: Providers, body: ChatRequest, user: UserId, first: ContentBlock, rest: seq<ContentBlock>)
    requires ClientsBuilt(env) && !MissingFields(body) && body.provider.value == Str("claude") && IsSet(env, ClaudeKey)
    requires providers.claude(ClaudeCall(body.model.value, 1000, ClaudeMessages(body.messages.value))) == Ok([first] + rest)
    ensures Post(env, providers, WellFormed(body), Some(user))
         == Success(ChatReply("assistant", if first.TextBlock? then Str(first.text) else Str("")))
  {
  }

  /**
   * With the key set and a supported model, OpenAI is sent the model and the
   * messages unchanged; the first choice's content is the reply, and a
   * thrown error's message is the 500.
   */
  lemma OpenAIExchange(env: Env, providers: Providers, body: ChatRequest, user: UserId)
    requires !MissingFields(body) && body.provider.value == Str("openai")
    requires IsSet(env, OpenAIKey) && IsOpenAIChatModel(body.model.value)
    ensures forall c, rest :: providers.openai(body.model.value, body.messages.value) == Ok([c] + rest) ==>
      Post(env, providers, WellFormed(body), Some(user)) == Success(ChatReply("assistant", c))
    ensures forall m :: providers.openai(body.model.value, body.messages.value) == Err(m) ==>
      Post(env, providers, WellFormed(body), Some(user)) == Fail(500, m)
  {
  }

  /**
   * With the key set, Perplexity is sent `Bearer <key>`, the model and the
   * messages; the first choice's content is the reply, and a thrown error's
   * message is the 500.
   */
  lemma PerplexityExchange(env: Env, providers: Providers, body: ChatRequest, user: UserId)
    requires ClientsBuilt(env) && !MissingFields(body) && body.provider.value == Str("perplexity") && IsSet(env, PerplexityKey)
    ensures var call := PerplexityCall("Bearer " + env[PerplexityKey], body.model.value, body.messages.value);
      forall c, rest :: providers.perplexity(call) == Ok(Choices([c] + rest)) ==>
        Post(env, providers, WellFormed(body), Some(user)) == Success(ChatReply("assistant", c))
    ensures var call := PerplexityCall("Bearer " + env[PerplexityKey], body.model.value, body.messages.value);
      forall m :: providers.perplexity(call) == Err(m) ==>
        Post(env, providers, WellFormed(body), Some(user)) == Fail(500, m)
  {
  }

  /** An empty list of choices, or a Perplexity body without `choices`, ends in the `TypeError`'s 500. */
  lemma EmptyReplyIs500(env: Env, providers: Providers, body: ChatRequest, user: UserId)
    requires !MissingFields(body) && IsSet(env, OpenAIKey) && IsSet(env, PerplexityKey)
    ensures body.provider.value == Str("openai") && IsOpenAIChatModel(body.model.value)
            && providers.openai(body.model.value, body.messages.value) == Ok([]) ==>
      Post(env, providers, WellFormed(body), Some(user)) == Fail(500, ReadOfUndefined("message"))
    ensures body.provider.value == Str("perplexity")
            && providers.perplexity(PerplexityCall("Bearer " + env[PerplexityKey], body.model.value, body.messages.value)) == Ok(NoChoices) ==>
      Post(env, providers, WellFormed(body), Some(user)) == Fail(500, ReadOfUndefined("0"))
  {
  }

  /**
   * Without `PROVIDER_OPENAI_API_KEY` and `OPENAI_API_KEY` the module fails to
   * load: every request, for any provider and any caller, gets the
   * framework's 500, and the route's own messages are never sent.
   */
  lemma UnbuiltClientFailsEveryRequest(env: Env, providers: Providers, body: Parsed<ChatRequest>, user: Option<UserId>)
    requires OpenAIKey !in env && SdkDefaultKey !in env
    ensures Post(env, providers, body, user) == LoadFailure
    ensures !Post(env, providers, body, user).body.ErrorJson?
  {
  }

  /**
   * The "not configured" answer is reachable only past module load: an empty
   * `PROVIDER_OPENAI_API_KEY` loads (the client is given `''`, which is not
   * undefined) and is then refused by the route's own check.
   */
  lemma EmptyOpenAIKeyNotConfigured(env: Env, providers: Providers, body: ChatRequest, user: UserId)
    requires OpenAIKey in env && env[OpenAIKey] == ""
    requires !MissingFields(body) && body.provider.value == Str("openai")
    ensures Post(env, providers, WellFormed(body), Some(user)) == Fail(500, "OpenAI API key not configured")
  {
    OpenAIKeyBeforeModel(env, providers, body, user);
  }
}
