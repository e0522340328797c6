/**
 * The model-listing endpoint: OpenAI's chat models, fetched live and
 * filtered by prefix, or a fixed list for Claude and Perplexity.
 */
module ModelsRoute {
  import opened Wrappers
  import opened Json
  import opened Http
  import opened JsString
  import opened ValidateEnv

  /** `CHAT_MODEL_PREFIXES` */
  const ChatModelPrefixes: seq<string> := ["gpt-3.5-turbo", "gpt-4"]

  datatype ProviderModel = ProviderModel(id: string, name: string)

  /** `CHAT_MODEL_PREFIXES.some(prefix => id.startsWith(prefix))` */
  predicate IsChatModelId(id: string) {
    exists p :: p in ChatModelPrefixes && StartsWith(id, p)
  }

  /** `id.replace('gpt-', 'GPT-').replace('-turbo', ' Turbo')` */
  function DisplayName(id: string): (r: string)
    ensures |r| == |id|
  {
    ReplaceFirstKeepsLength(id, "gpt-", "GPT-");
    ReplaceFirstKeepsLength(ReplaceFirst(id, "gpt-", "GPT-"), "-turbo", " Turbo");
    ReplaceFirst(ReplaceFirst(id, "gpt-", "GPT-"), "-turbo", " Turbo")
  }

  /** The filter and map over `data.data`: the chat models, in listing order, with display names. */
  function ChatModels(ids: seq<string>): (r: seq<ProviderModel>)
    ensures |r| <= |ids|
    ensures forall m :: m in r ==> IsChatModelId(m.id) && m.name == DisplayName(m.id)
    ensures forall id :: id in ids && IsChatModelId(id) <==> exists m :: m in r && m.id == id
  {
    if ids == [] then []
    else
      var rest := ChatModels(ids[1..]);
      var head := if IsChatModelId(ids[0]) then [ProviderModel(ids[0], DisplayName(ids[0]))] else [];
      assert forall id :: id in ids <==> id == ids[0] || id in ids[1..];
      head + rest
  }

  const ClaudeModels: seq<ProviderModel> := [ProviderModel("claude-2", "Claude 2"), ProviderModel("claude-instant", "Claude Instant")]
  const PerplexityModels: seq<ProviderModel> := [ProviderModel("pplx-7b-chat", "Perplexity 7B"), ProviderModel("pplx-70b-chat", "Perplexity 70B")]

  /** How the request to OpenAI's model list ends. */
  datatype Listing =
    | Listed(ids: seq<string>)   // a body whose `data` is the list of models
    | NoData                     // a body without `data`
    | NotOk                      // a status outside 200-299
    | Threw(message: string)     // `fetch` or `response.json()` threw this `Error`

  /** The model list requests authenticate with `OPENAI_API_KEY`, which an unset variable turns into `Bearer undefined`. */
  const ListingKey := "OPENAI_API_KEY"

  function ListingAuthorization(env: Env): (r: string)
    ensures "Bearer " <= r
    ensures ListingKey in env ==> r[|"Bearer "|..] == env[ListingKey]
    ensures ListingKey !in env ==> r == "Bearer undefined"
  {
    "Bearer " + (if ListingKey in env then env[ListingKey] else "undefined")
  }

  /** `getProviderModels(provider)`: the list, or the message of the `Error` it throws. */
  function ProviderModels(provider: string, env: Env, fetchModels: string -> Listing): (r: Result<seq<ProviderModel>, string>)
    ensures provider !in {"openai", "claude", "perplexity"} ==> r == Err("Unsupported provider")
    ensures provider == "openai" && r.Ok? ==> forall m :: m in r.value ==> IsChatModelId(m.id) && m.name == DisplayName(m.id)
    ensures provider == "claude" ==> r == Ok(ClaudeModels)
    ensures provider == "perplexity" ==> r == Ok(PerplexityModels)
  {
    match provider
    case "openai" =>
      (match fetchModels(ListingAuthorization(env))
       case NotOk => Err("Failed to fetch OpenAI models")
       case Threw(message) => Err(message)
       case NoData => Err(ReadOfUndefined("filter"))
       case Listed(ids) => Ok(ChatModels(ids)))
    case "claude" => Ok(ClaudeModels)
    case "perplexity" => Ok(PerplexityModels)
    case _ => Err("Unsupported provider")
  }

  /** `GET /api/providers/models?provider=…`, answering `{ models }`. */
  function Get(provider: Option<string>, env: Env, fetchModels: string -> Listing): (r: Response<seq<ProviderModel>>)
    ensures r.status in {200, 400, 404, 500}
    ensures r.status == 400 <==> !Given(provider)
    ensures r.status == 200 ==> r.body.Json? && r.body.value != []
    ensures r.status == 404 ==> provider.value == "openai"
  {
    if !Given(provider) then Fail(400, "Provider parameter is required")
    else
      match ProviderModels(provider.value, env, fetchModels)
      case Err(message) => Fail(500, message)
      case Ok(models) => if |models| == 0 then Fail(404, "No models found for this provider") else Success(models)
  }

  /** The filter keeps listing order: it distributes over concatenation. */
  lemma {:induction false} ChatModelsAppend(a: seq<string>, b: seq<string>)
    ensures ChatModels(a + b) == ChatModels(a) + ChatModels(b)
  {
    if a == [] {
      assert a + b == b;
    } else {
      var head := if IsChatModelId(a[0]) then [ProviderModel(a[0], DisplayName(a[0]))] else [];
      assert (a + b)[0] == a[0];
      assert (a + b)[1..] == a[1..] + b;
      assert ChatModels(a + b) == head + ChatModels(a[1..] + b);
      ChatModelsAppend(a[1..], b);
      assert head + (ChatModels(a[1..]) + ChatModels(b)) == (head + ChatModels(a[1..])) + ChatModels(b);
    }
  }

  /** Each listed id is kept, under its display name, exactly when it has a chat prefix. */
  lemma ChatModelsOfOne(id: string)
    ensures ChatModels([id]) == if IsChatModelId(id) then [ProviderModel(id, DisplayName(id))] else []
  {
    assert [id][1..] == [];
  }

  /** The two prefixes are exactly the `gpt-4…` and `gpt-3.5-turbo…` ids. */
  lemma ChatModelIdIffPrefix(id: string)
    ensures IsChatModelId(id) <==> StartsWith(id, "gpt-3.5-turbo") || StartsWith(id, "gpt-4")
  {
    if StartsWith(id, "gpt-3.5-turbo") {
      assert ChatModelPrefixes[0] in ChatModelPrefixes;
    } else if StartsWith(id, "gpt-4") {
      assert ChatModelPrefixes[1] in ChatModelPrefixes;
    }
  }

  /**
   * On an id `gpt-<version>-turbo<rest>`, whose version holds no `-` and
   * does not begin with `t`, the rewrite gives `GPT-<version> Turbo<rest>`.
   */
  lemma DisplayNameOfTurboId(version: string, rest: string)
    requires version != [] && version[0] != 't' && '-' !in version
    ensures DisplayName("gpt-" + version + "-turbo" + rest) == "GPT-" + version + " Turbo" + rest
  {
    var tail := version + "-turbo" + rest;
    assert "gpt-" + version + "-turbo" + rest == "gpt-" + tail;
    ReplaceFirstAtStart("gpt-", tail, "GPT-");
    assert "GPT-" + tail == "GPT-" + version + "-turbo" + rest;
    TurboAfterVersion(version, rest);
  }

  /** The second rewrite passes over `GPT` and the version and replaces the `-turbo` behind them. */
  lemma TurboAfterVersion(version: string, rest: string)
    requires version != [] && version[0] != 't' && '-' !in version
    ensures ReplaceFirst("GPT-" + version + "-turbo" + rest, "-turbo", " Turbo") == "GPT-" + version + " Turbo" + rest
  {
    var pat, rep := "-turbo", " Turbo";
    var tail := version + (pat + rest);
    var dashed := "-" + tail;
    calc {
      ReplaceFirst("GPT-" + version + pat + rest, pat, rep);
      { assert "GPT-" + version + pat + rest == "GPT" + dashed; }
      ReplaceFirst("GPT" + dashed, pat, rep);
      { ReplaceFirstSkips("GPT", dashed, pat, rep); }
      "GPT" + ReplaceFirst(dashed, pat, rep);
      { assert !(pat <= dashed) by { assert dashed[1] == version[0]; }
        assert dashed[1..] == tail; }
      "GPT" + ("-" + ReplaceFirst(tail, pat, rep));
      { ReplaceFirstSkips(version, pat + rest, pat, rep); }
      "GPT" + ("-" + (version + ReplaceFirst(pat + rest, pat, rep)));
      { ReplaceFirstAtStart(pat, rest, rep); }
      "GPT" + ("-" + (version + (rep + rest)));
      "GPT-" + version + rep + rest;
    }
  }

  /** On an id `gpt-<rest>` with no `-` after the prefix (and not `gpt-turbo…`), only the prefix is upper-cased. */
  lemma DisplayNameWithoutTurbo(rest: string)
    requires '-' !in rest && (rest == [] || rest[0] != 't')
    ensures DisplayName("gpt-" + rest) == "GPT-" + rest
  {
    ReplaceFirstAtStart("gpt-", rest, "GPT-");
    var dashed := "-" + rest;
    assert "GPT-" + rest == "GPT" + dashed;
    ReplaceFirstSkips("GPT", dashed, "-turbo", " Turbo");
    assert !("-turbo" <= dashed) by {
      if |dashed| >= 2 { assert dashed[1] == rest[0]; }
    }
    assert dashed[1..] == rest;
    ReplaceFirstSkips(rest, [], "-turbo", " Turbo");
    assert rest + [] == rest;
    assert "GPT" + ("-" + rest) == "GPT-" + rest;
  }

  /** `gpt-3.5-turbo` reads `GPT-3.5 Turbo`. */
  lemma DisplayNameOfGpt35Turbo()
    ensures DisplayName("gpt-3.5-turbo") == "GPT-3.5 Turbo"
  {
    DisplayNameOfTurboId("3.5", "");
    assert "gpt-" + "3.5" + "-turbo" + "" == "gpt-3.5-turbo";
    assert "GPT-" + "3.5" + " Turbo" + "" == "GPT-3.5 Turbo";
  }

  /** `gpt-4-turbo-preview` reads `GPT-4 Turbo-preview`: only the first `-turbo` is rewritten. */
  lemma DisplayNameOfGpt4TurboPreview()
    ensures DisplayName("gpt-4-turbo-preview") == "GPT-4 Turbo-preview"
  {
    var id, name := "gpt-4-turbo-preview", "GPT-4 Turbo-preview";
    assert id == "gpt-" + "4" + "-turbo" + "-preview";
    assert name == "GPT-" + "4" + " Turbo" + "-preview";
    DisplayNameOfTurboId("4", "-preview");
  }

  /** `gpt-4` reads `GPT-4`. */
  lemma DisplayNameOfGpt4()
    ensures DisplayName("gpt-4") == "GPT-4"
  {
    DisplayNameWithoutTurbo("4");
    assert "gpt-" + "4" == "gpt-4";
    assert "GPT-" + "4" == "GPT-4";
  }

  /** A listing with no chat-model id yields no models. */
  lemma {:induction false} NoChatIdsNoModels(ids: seq<string>)
    requires forall id :: id in ids ==> !IsChatModelId(id)
    ensures ChatModels(ids) == []
  {
    if ids != [] {
      assert ids[0] in ids;
      NoChatIdsNoModels(ids[1..]);
    }
  }

  /** `claude` and `perplexity` answer with their fixed lists, whatever the environment. */
  lemma StaticLists(env: Env, fetchModels: string -> Listing)
    ensures Get(Some("claude"), env, fetchModels) == Success(ClaudeModels)
    ensures Get(Some("perplexity"), env, fetchModels) == Success(PerplexityModels)
  {
  }

  /** A missing provider is 400, an unknown one 500, and an OpenAI listing without chat models 404. */
  lemma StatusMapping(provider: string, env: Env, fetchModels: string -> Listing)
    ensures Get(None, env, fetchModels) == Fail(400, "Provider parameter is required")
    ensures Get(Some(""), env, fetchModels) == Fail(400, "Provider parameter is required")
    ensures provider !in {"", "openai", "claude", "perplexity"} ==> Get(Some(provider), env, fetchModels) == Fail(500, "Unsupported provider")
    ensures fetchModels(ListingAuthorization(env)) == NotOk ==> Get(Some("openai"), env, fetchModels) == Fail(500, "Failed to fetch OpenAI models")
    ensures fetchModels(ListingAuthorization(env)).Listed? && (forall id :: id in fetchModels(ListingAuthorization(env)).ids ==> !IsChatModelId(id))
      ==> Get(Some("openai"), env, fetchModels) == Fail(404, "No models found for this provider")
  {
    var listing := fetchModels(ListingAuthorization(env));
    if listing.Listed? && (forall id :: id in listing.ids ==> !IsChatModelId(id)) {
      NoChatIdsNoModels(listing.ids);
    }
  }
}
