/**
 * The process environment and the start-up check that the three provider
 * API keys are set.
 */
module ValidateEnv {
  import opened Wrappers

  /** `process.env`: variable names to their (string) values. */
  type Env = map<string, string>

  /** `!!process.env[key]`: the variable exists and is not empty. */
  predicate IsSet(env: Env, key: string) {
    key in env && env[key] != ""
  }

  const OpenAIKey := "PROVIDER_OPENAI_API_KEY"
  const ClaudeKey := "PROVIDER_CLAUDE_API_KEY"
  const PerplexityKey := "PROVIDER_PERPLEXITY_API_KEY"

  /** The keys checked, in declaration order. */
  const RequiredVars: seq<string> := [OpenAIKey, ClaudeKey, PerplexityKey]

  /** The keys of `keys` that are not set, in the order given. */
  function Unset(env: Env, keys: seq<string>): (r: seq<string>)
    ensures |r| <= |keys|
    ensures forall k :: k in r <==> k in keys && !IsSet(env, k)
  {
    if keys == [] then []
    else (if IsSet(env, keys[0]) then [] else [keys[0]]) + Unset(env, keys[1..])
  }

  /** The `missing` list: the provider keys that are unset or empty. */
  function Missing(env: Env): (r: seq<string>)
    ensures |r| <= |RequiredVars|
    ensures r == [] <==> forall k :: k in RequiredVars ==> IsSet(env, k)
  {
    var r := Unset(env, RequiredVars);
    assert r != [] ==> r[0] in r;
    r
  }

  /** `list.join(sep)` */
  function Join(parts: seq<string>, sep: string): (r: string)
    ensures parts == [] ==> r == ""
    ensures |parts| == 1 ==> r == parts[0]
  {
    if parts == [] then ""
    else if |parts| == 1 then parts[0]
    else parts[0] + sep + Join(parts[1..], sep)
  }

  /** `validateEnv()`: the boolean it returns and the warning it prints, if any. */
  datatype Validation = Validation(valid: bool, warning: Option<string>)

  function Validate(env: Env): (v: Validation)
    ensures v.valid <==> Missing(env) == []
    ensures v.warning.Some? <==> !v.valid
  {
    var missing := Missing(env);
    if |missing| > 0 then Validation(false, Some("Missing environment variables: " + Join(missing, ", ")))
    else Validation(true, None)
  }

  /** `missing` holds exactly the provider keys that are unset or empty. */
  lemma MissingExactly(env: Env)
    ensures forall k :: k in Missing(env) <==> k in RequiredVars && !IsSet(env, k)
  {
  }

  /** Filtering looks at the first key, then at the rest. */
  lemma UnsetCons(env: Env, x: string, rest: seq<string>)
    ensures Unset(env, [x] + rest) == (if IsSet(env, x) then [] else [x]) + Unset(env, rest)
  {
    assert ([x] + rest)[1..] == rest;
  }

  /** Filtering keeps the order of the keys, dropping the set ones. */
  lemma {:induction false} UnsetAppend(env: Env, a: seq<string>, b: seq<string>)
    ensures Unset(env, a + b) == Unset(env, a) + Unset(env, b)
  {
    if a == [] {
      assert a + b == b;
    } else {
      var x, t := a[0], a[1..];
      var head := if IsSet(env, x) then [] else [x];
      assert a == [x] + t;
      assert a + b == [x] + (t + b);
      UnsetCons(env, x, t + b);
      UnsetCons(env, x, t);
      UnsetAppend(env, t, b);
      ConcatAssoc(head, Unset(env, t), Unset(env, b));
    }
  }

  lemma ConcatAssoc(x: seq<string>, y: seq<string>, z: seq<string>)
    ensures x + (y + z) == (x + y) + z
  {
  }

  /**
   * `missing` lists the unset keys in declaration order: OpenAI, then
   * Claude, then Perplexity.
   */
  lemma MissingInDeclarationOrder(env: Env)
    ensures Missing(env) ==
      (if IsSet(env, OpenAIKey) then [] else [OpenAIKey])
      + (if IsSet(env, ClaudeKey) then [] else [ClaudeKey])
      + (if IsSet(env, PerplexityKey) then [] else [PerplexityKey])
  {
    UnsetOfThree(env, OpenAIKey, ClaudeKey, PerplexityKey);
  }

  /** Filtering three keys keeps each unset one, in place. */
  lemma UnsetOfThree(env: Env, a: string, b: string, c: string)
    ensures Unset(env, [a, b, c]) ==
      (if IsSet(env, a) then [] else [a]) + (if IsSet(env, b) then [] else [b]) + (if IsSet(env, c) then [] else [c])
  {
    var ha, hb, hc := (if IsSet(env, a) then [] else [a]), (if IsSet(env, b) then [] else [b]), (if IsSet(env, c) then [] else [c]);
    assert [a, b, c][1..] == [b, c] && [b, c][1..] == [c] && [c][1..] == [];
    assert Unset(env, [c]) == hc;
    assert Unset(env, [b, c]) == hb + hc;
    assert Unset(env, [a, b, c]) == ha + (hb + hc);
  }

  /** Three parts are joined with the separator between each neighbouring pair. */
  lemma JoinThree(a: string, b: string, c: string, sep: string)
    ensures Join([a, b, c], sep) == a + sep + b + sep + c
  {
    assert [a, b, c][1..] == [b, c] && [b, c][1..] == [c];
    assert Join([a, b, c], sep) == a + sep + (b + sep + c);
  }

  /** With nothing set, all three keys are reported, joined with commas. */
  lemma NothingSetWarnsAboutAll()
    ensures Validate(map[]) == Validation(false, Some(
      "Missing environment variables: " + OpenAIKey + ", " + ClaudeKey + ", " + PerplexityKey))
  {
    MissingInDeclarationOrder(map[]);
    var missing := [OpenAIKey, ClaudeKey, PerplexityKey];
    assert Missing(map[]) == missing;
    JoinThree(OpenAIKey, ClaudeKey, PerplexityKey, ", ");
    assert "Missing environment variables: " + (OpenAIKey + ", " + ClaudeKey + ", " + PerplexityKey)
        == "Missing environment variables: " + OpenAIKey + ", " + ClaudeKey + ", " + PerplexityKey;
  }

  /** Only the three provider keys matter: environments that agree on them validate alike. */
  lemma OnlyProviderKeysMatter(env: Env, other: Env)
    requires forall k :: k in RequiredVars ==> (IsSet(env, k) <==> IsSet(other, k))
    ensures Validate(env) == Validate(other)
  {
    MissingInDeclarationOrder(env);
    MissingInDeclarationOrder(other);
  }
}
