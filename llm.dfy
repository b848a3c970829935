// LLM configuration (llms/llm.py): the token-limit table and the limit inferred from a
// model name, the per-type configuration merged from the YAML mapping and the
// environment, the allow-list filter, the choice of provider and the per-type cache.
// The chat-model constructors and the HTTP clients are not modelled: a created model is
// the provider chosen and the keyword arguments it would be given.
module Llm {
  import opened Wrappers
  import opened Strings
  import opened Values

  type Entries = seq<(string, Value)>

  /** The safe default and the value of the table's "default" key. */
  const DefaultTokenLimit: int := 100000

  /** `_get_model_token_limit_defaults`, in declaration order. */
  const TokenLimitDefaults: seq<(string, int)> := [
    ("gpt-4o", 120000), ("gpt-4-turbo", 120000), ("gpt-4", 8000), ("gpt-3.5-turbo", 4000),
    ("claude-3", 180000), ("claude-2", 100000),
    ("gemini-2", 180000), ("gemini-1.5-pro", 180000), ("gemini-1.5-flash", 180000),
    ("gemini-pro", 30000),
    ("doubao", 200000), ("deepseek", 100000), ("qwen", 30000), ("llama", 4000),
    ("default", 100000)]

  /** The position of the first table key that occurs in `name`. */
  function FirstKeyIn(name: string, table: seq<(string, int)>): (r: Option<nat>)
    ensures r.Some? ==> r.value < |table| && Contains(name, table[r.value].0)
    ensures r.Some? ==> forall j :: 0 <= j < r.value ==> !Contains(name, table[j].0)
    ensures r.None? <==> forall j :: 0 <= j < |table| ==> !Contains(name, table[j].0)
    decreases |table|
  {
    if |table| == 0 then None
    else if Contains(name, table[0].0) then Some(0)
    else
      match FirstKeyIn(name, table[1..])
      case None => None
      case Some(k) => Some(k + 1)
  }

  /** `_infer_token_limit_from_model`. */
  function InferTokenLimit(modelName: string): (r: int)
    ensures modelName == "" ==> r == DefaultTokenLimit
    ensures 4000 <= r <= 200000
  {
    if modelName == "" then DefaultTokenLimit
    else
      match FirstKeyIn(Lower(modelName), TokenLimitDefaults)
      case Some(k) => TableLimitBounds(k); TokenLimitDefaults[k].1
      case None => DefaultTokenLimit
  }

  /** Every limit in the table lies between 4000 and 200000. */
  lemma TableLimitBounds(k: nat)
    requires k < |TokenLimitDefaults|
    ensures 4000 <= TokenLimitDefaults[k].1 <= 200000
  {
    var limits := [120000, 120000, 8000, 4000, 180000, 100000, 180000, 180000, 180000, 30000,
                   200000, 100000, 30000, 4000, 100000];
    assert forall j :: 0 <= j < |TokenLimitDefaults| ==> TokenLimitDefaults[j].1 == limits[j];
  }

  /** A non-empty name takes the limit of the first key, in table order, that occurs in
      its lower-cased form. */
  lemma InferUsesFirstKey(modelName: string, k: nat)
    requires modelName != "" && k < |TokenLimitDefaults|
    requires Contains(Lower(modelName), TokenLimitDefaults[k].0)
    requires forall j :: 0 <= j < k ==> !Contains(Lower(modelName), TokenLimitDefaults[j].0)
    ensures InferTokenLimit(modelName) == TokenLimitDefaults[k].1
  {
    var f := FirstKeyIn(Lower(modelName), TokenLimitDefaults);
    assert f.Some?;
    assert !(f.value < k) && !(k < f.value);
  }

  /** A name holding no key gets the default. */
  lemma InferWithoutKey(modelName: string)
    requires forall j :: 0 <= j < |TokenLimitDefaults| ==> !Contains(Lower(modelName), TokenLimitDefaults[j].0)
    ensures InferTokenLimit(modelName) == DefaultTokenLimit
  {
  }

  /** "gpt-4o-mini" hits "gpt-4o", listed before "gpt-4". */
  lemma MiniModelHitsFirstKey()
    ensures InferTokenLimit("gpt-4o-mini") == 120000
  {
    LowerOfLowercase("gpt-4o-mini");
    ContainsAt("gpt-4o-mini", 0, "gpt-4o");
    InferUsesFirstKey("gpt-4o-mini", 0);
  }

  /** Plain "gpt-4" skips the two longer "gpt-4" keys before it. */
  lemma PlainGpt4Limit()
    ensures InferTokenLimit("gpt-4") == 8000
  {
    LowerOfLowercase("gpt-4");
    ContainsLonger("gpt-4", "gpt-4o");
    ContainsLonger("gpt-4", "gpt-4-turbo");
    ContainsAt("gpt-4", 0, "gpt-4");
    InferUsesFirstKey("gpt-4", 2);
  }

  /** `_get_llm_type_config_keys().get(llm_type)`. */
  function ConfigKey(llmType: string): (r: Option<string>)
    ensures r.Some? <==> llmType in {"reasoning", "basic", "vision", "code"}
  {
    if llmType == "reasoning" then Some("REASONING_MODEL")
    else if llmType == "basic" then Some("BASIC_MODEL")
    else if llmType == "vision" then Some("VISION_MODEL")
    else if llmType == "code" then Some("CODE_MODEL")
    else None
  }

  /** The section of the configuration for a type; an unknown type reads the empty dict. */
  function ModelConfig(llmType: string, conf: Entries): Value
  {
    match ConfigKey(llmType)
    case None => Dict([])
    case Some(key) => Lookup(conf, key).GetOr(Dict([]))
  }

  /** The limit from the configured model name, else the default. */
  function LimitFromModel(es: Entries): Result<Value, string>
  {
    match Lookup(es, "model")
    case Some(m) =>
      if !Truthy(m) then Ok(Num(DefaultTokenLimit as real))
      else if m.Str? then Ok(Num(InferTokenLimit(m.s) as real))
      else Err("AttributeError: model name has no lower()")
    case None => Ok(Num(DefaultTokenLimit as real))
  }

  /** `get_llm_token_limit_by_type`, over the loaded configuration. A section that is not a
      dict fails: neither the membership test nor `get` applies to it. */
  function TokenLimitByType(llmType: string, conf: Entries): (r: Result<Value, string>)
    ensures r.Ok? ==> r.value != Null
    ensures r.Err? ==> (!ModelConfig(llmType, conf).Dict? ||
      (var m := Lookup(ModelConfig(llmType, conf).entries, "model"); m.Some? && Truthy(m.value) && !m.value.Str?))
  {
    var mc := ModelConfig(llmType, conf);
    if !mc.Dict? then Err("TypeError: configuration section is not a dict")
    else
      match Lookup(mc.entries, "token_limit")
      case Some(v) => if v != Null then Ok(v) else LimitFromModel(mc.entries)
      case None => LimitFromModel(mc.entries)
  }

  /** First priority: a configured token_limit that is not None. */
  lemma ConfiguredLimitFirst(llmType: string, conf: Entries, es: Entries, v: Value)
    requires ConfigKey(llmType).Some? && Lookup(conf, ConfigKey(llmType).value) == Some(Dict(es))
    requires Lookup(es, "token_limit") == Some(v) && v != Null
    ensures TokenLimitByType(llmType, conf) == Ok(v)
  {
  }

  /** Second priority: the limit inferred from a configured model name. */
  lemma InferredFromModel(llmType: string, conf: Entries, es: Entries, name: string)
    requires ConfigKey(llmType).Some? && Lookup(conf, ConfigKey(llmType).value) == Some(Dict(es))
    requires Lookup(es, "token_limit").None? || Lookup(es, "token_limit") == Some(Null)
    requires Lookup(es, "model") == Some(Str(name)) && name != ""
    ensures TokenLimitByType(llmType, conf) == Ok(Num(InferTokenLimit(name) as real))
  {
  }

  /** Without a limit or a model name the default applies. */
  lemma DefaultWithoutModel(llmType: string, conf: Entries, es: Entries)
    requires ConfigKey(llmType).Some? && Lookup(conf, ConfigKey(llmType).value) == Some(Dict(es))
    requires Lookup(es, "token_limit").None? || Lookup(es, "token_limit") == Some(Null)
    requires Lookup(es, "model").None? || !Truthy(Lookup(es, "model").value)
    ensures TokenLimitByType(llmType, conf) == Ok(Num(100000.0))
  {
  }

  /** An unknown type, or a type without a section, gets the default. */
  lemma UnknownTypeGetsDefault(llmType: string, conf: Entries)
    requires ConfigKey(llmType).None? || Lookup(conf, ConfigKey(llmType).value).None?
    ensures TokenLimitByType(llmType, conf) == Ok(Num(100000.0))
  {
  }

  // ---------------------------------------------------------------------------------
  // Configuration from the environment

  /** "{TYPE}_MODEL__". */
  function EnvPrefix(llmType: string): string
  {
    Upper(llmType) + "_MODEL__"
  }

  /** The variable carries the prefix and names `key` after it, lower-cased. */
  predicate Selects(prefix: string, entry: (string, string), key: string)
  {
    StartsWith(entry.0, prefix) && Lower(entry.0[|prefix|..]) == key
  }

  /** The configuration read from the variables, in iteration order. */
  function EnvConfOf(prefix: string, environ: seq<(string, string)>): Entries
    decreases |environ|
  {
    if |environ| == 0 then []
    else
      var conf := EnvConfOf(prefix, environ[..|environ| - 1]);
      var (name, value) := environ[|environ| - 1];
      if StartsWith(name, prefix) then Put(conf, Lower(name[|prefix|..]), Str(value)) else conf
  }

  /** `_get_env_llm_conf`: the environment is a parameter, in iteration order. */
  method EnvLlmConf(llmType: string, environ: seq<(string, string)>) returns (conf: Entries)
    ensures conf == EnvConfOf(EnvPrefix(llmType), environ)
  {
    var prefix := Upper(llmType) + "_MODEL__";
    conf := [];
    var i := 0;
    while i < |environ|
      invariant 0 <= i <= |environ|
      invariant conf == EnvConfOf(prefix, environ[..i])
    {
      var (name, value) := environ[i];
      assert environ[..i + 1][..i] == environ[..i];
      if StartsWith(name, prefix) {
        conf := Put(conf, Lower(name[|prefix|..]), Str(value));
      }
      i := i + 1;
    }
    assert environ[..|environ|] == environ;
  }

  /** The environment configuration has unique keys. */
  lemma {:induction false} EnvConfWellFormed(prefix: string, environ: seq<(string, string)>)
    ensures WellFormed(EnvConfOf(prefix, environ))
    decreases |environ|
  {
    if |environ| > 0 {
      var init := environ[..|environ| - 1];
      EnvConfWellFormed(prefix, init);
      var (name, value) := environ[|environ| - 1];
      if StartsWith(name, prefix) {
        PutWellFormed(EnvConfOf(prefix, init), Lower(name[|prefix|..]), Str(value));
      }
    }
  }

  /** A key is configured exactly when some variable with the prefix names it. */
  lemma {:induction false} EnvConfHas(prefix: string, environ: seq<(string, string)>, key: string)
    ensures Lookup(EnvConfOf(prefix, environ), key).Some? <==>
      exists i :: 0 <= i < |environ| && Selects(prefix, environ[i], key)
    decreases |environ|
  {
    if |environ| > 0 {
      var n := |environ| - 1;
      var init := environ[..n];
      EnvConfHas(prefix, init, key);
      var (name, value) := environ[n];
      if StartsWith(name, prefix) {
        PutLookup(EnvConfOf(prefix, init), Lower(name[|prefix|..]), Str(value), key);
      }
      assert forall i :: 0 <= i < n ==> init[i] == environ[i];
      if exists i :: 0 <= i < |environ| && Selects(prefix, environ[i], key) {
        var i :| 0 <= i < |environ| && Selects(prefix, environ[i], key);
        if i < n {
          assert Selects(prefix, init[i], key);
        }
      }
    }
  }

  /** The value of a configured key is that of the last variable naming it. */
  lemma {:induction false} EnvConfLastWins(prefix: string, environ: seq<(string, string)>, key: string, v: Value)
    requires Lookup(EnvConfOf(prefix, environ), key) == Some(v)
    ensures exists i :: (0 <= i < |environ| && Selects(prefix, environ[i], key) && v == Str(environ[i].1) &&
      forall j :: i < j < |environ| ==> !Selects(prefix, environ[j], key))
    decreases |environ|
  {
    var n := |environ| - 1;
    var init := environ[..n];
    var (name, value) := environ[n];
    if StartsWith(name, prefix) {
      PutLookup(EnvConfOf(prefix, init), Lower(name[|prefix|..]), Str(value), key);
    }
    if Selects(prefix, environ[n], key) {
      assert Selects(prefix, environ[n], key) && v == Str(environ[n].1);
    } else {
      EnvConfLastWins(prefix, init, key, v);
      var i :| 0 <= i < |init| && Selects(prefix, init[i], key) && v == Str(init[i].1) &&
        forall j :: i < j < |init| ==> !Selects(prefix, init[j], key);
      assert environ[i] == init[i];
      assert forall j :: i < j < n ==> environ[j] == init[j];
    }
  }

  // ---------------------------------------------------------------------------------
  // Merging and filtering

  /** `{**base, **over}`: each entry of `over` stored in turn. */
  function Merge(base: Entries, over: Entries): Entries
    decreases |over|
  {
    if |over| == 0 then base else Merge(Put(base, over[0].0, over[0].1), over[1..])
  }

  /** The later dict takes precedence; keys only in the first keep their value. */
  lemma {:induction false} MergeLookup(base: Entries, over: Entries, k: string)
    requires WellFormed(over)
    ensures Lookup(Merge(base, over), k) == if HasKey(over, k) then Lookup(over, k) else Lookup(base, k)
    decreases |over|
  {
    if |over| > 0 {
      var x := over[0];
      WellFormedTail(over);
      MergeLookup(Put(base, x.0, x.1), over[1..], k);
      PutLookup(base, x.0, x.1, k);
      assert Keys(over) == [x.0] + Keys(over[1..]);
      LookupSomeIffHasKey(over[1..], k);
    }
  }

  /** `ALLOWED_LLM_CONFIG_KEYS`. Every key is written in lower case, so the lower-cased
      set the filter compares with is this set itself. */
  const AllowedKeys: set<string> := {
    "model", "api_key", "base_url", "api_base", "max_retries", "timeout", "max_tokens",
    "temperature", "top_p", "frequency_penalty", "presence_penalty", "stop", "n", "stream",
    "logprobs", "echo", "best_of", "logit_bias", "user", "seed",
    "verify_ssl", "http_client", "http_async_client",
    "platform", "google_api_key",
    "azure_endpoint", "azure_deployment", "api_version", "azure_ad_token", "azure_ad_token_provider",
    "extra_body", "token_limit", "default_headers", "default_query"}

  predicate Allowed(k: string)
  {
    Lower(k) in AllowedKeys
  }

  /** The configuration without the keys outside the allow-list. */
  function KeepAllowed(es: Entries): (r: Entries)
    ensures |r| <= |es|
  {
    if |es| == 0 then []
    else if Allowed(es[0].0) then [es[0]] + KeepAllowed(es[1..])
    else KeepAllowed(es[1..])
  }

  /** Allowed keys keep their value, the others are gone. */
  lemma {:induction false} KeepAllowedLookup(es: Entries, k: string)
    ensures Lookup(KeepAllowed(es), k) == if Allowed(k) then Lookup(es, k) else None
  {
    if |es| > 0 {
      KeepAllowedLookup(es[1..], k);
    }
  }

  /** The unexpected keys, in dict order, after the first entries of `es`. */
  function Unexpected(es: Entries): seq<string>
    decreases |es|
  {
    if |es| == 0 then []
    else if Allowed(es[|es| - 1].0) then Unexpected(es[..|es| - 1])
    else Unexpected(es[..|es| - 1]) + [es[|es| - 1].0]
  }

  lemma {:induction false} UnexpectedMembers(es: Entries, k: string)
    ensures k in Unexpected(es) <==> !Allowed(k) && exists i :: 0 <= i < |es| && es[i].0 == k
    decreases |es|
  {
    if |es| > 0 {
      var n := |es| - 1;
      UnexpectedMembers(es[..n], k);
      assert forall i :: 0 <= i < n ==> es[..n][i] == es[i];
      if exists i :: 0 <= i < |es| && es[i].0 == k {
        var i :| 0 <= i < |es| && es[i].0 == k;
        if i < n {
          assert es[..n][i].0 == k;
        }
      }
    }
  }

  /** The entries whose key is not listed. */
  function Without(es: Entries, ks: seq<string>): Entries
  {
    if |es| == 0 then []
    else if es[0].0 in ks then Without(es[1..], ks)
    else [es[0]] + Without(es[1..], ks)
  }

  /** The pops, one per listed key in turn. */
  function PopAll(es: Entries, ks: seq<string>): Entries
    decreases |ks|
  {
    if |ks| == 0 then es else Remove(PopAll(es, ks[..|ks| - 1]), ks[|ks| - 1])
  }

  lemma {:induction false} RemoveWithout(es: Entries, ks: seq<string>, k: string)
    ensures Remove(Without(es, ks), k) == Without(es, ks + [k])
  {
    if |es| > 0 {
      RemoveWithout(es[1..], ks, k);
    }
  }

  lemma {:induction false} PopAllWithout(es: Entries, ks: seq<string>)
    ensures PopAll(es, ks) == Without(es, ks)
    decreases |ks|
  {
    if |ks| == 0 {
      WithoutNothing(es);
    } else {
      var init := ks[..|ks| - 1];
      PopAllWithout(es, init);
      RemoveWithout(es, init, ks[|ks| - 1]);
      assert init + [ks[|ks| - 1]] == ks;
    }
  }

  lemma {:induction false} WithoutNothing(es: Entries)
    ensures Without(es, []) == es
  {
    if |es| > 0 {
      WithoutNothing(es[1..]);
    }
  }

  /** Removing exactly the keys that are not allowed keeps the allowed entries. */
  lemma {:induction false} WithoutUnexpected(es: Entries, ks: seq<string>)
    requires forall i :: 0 <= i < |es| ==> (es[i].0 in ks <==> !Allowed(es[i].0))
    ensures Without(es, ks) == KeepAllowed(es)
  {
    if |es| > 0 {
      assert forall i :: 0 <= i < |es| - 1 ==> es[1..][i] == es[i + 1];
      WithoutUnexpected(es[1..], ks);
    }
  }

  /** The filter in `_create_llm_use_conf`: the unexpected keys are listed first, then
      popped one by one. */
  method DropUnexpected(merged: Entries) returns (r: Entries)
    ensures r == KeepAllowed(merged)
  {
    var unexpected: seq<string> := [];
    var i := 0;
    while i < |merged|
      invariant 0 <= i <= |merged|
      invariant unexpected == Unexpected(merged[..i])
    {
      assert merged[..i + 1][..i] == merged[..i];
      if !Allowed(merged[i].0) {
        unexpected := unexpected + [merged[i].0];
      }
      i := i + 1;
    }
    assert merged[..|merged|] == merged;
    r := merged;
    var j := 0;
    while j < |unexpected|
      invariant 0 <= j <= |unexpected|
      invariant r == PopAll(merged, unexpected[..j])
    {
      assert unexpected[..j + 1][..j] == unexpected[..j];
      r := Remove(r, unexpected[j]);
      j := j + 1;
    }
    assert unexpected[..|unexpected|] == unexpected;
    PopAllWithout(merged, unexpected);
    forall i | 0 <= i < |merged|
      ensures merged[i].0 in unexpected <==> !Allowed(merged[i].0)
    {
      UnexpectedMembers(merged, merged[i].0);
    }
    WithoutUnexpected(merged, unexpected);
  }

  /** The merged and filtered configuration sees an allowed key in the environment first,
      then in the YAML section; other keys are gone. */
  lemma FilteredLookup(yaml: Entries, prefix: string, environ: seq<(string, string)>, k: string)
    ensures var env := EnvConfOf(prefix, environ);
      Lookup(KeepAllowed(Merge(yaml, env)), k) ==
        if !Allowed(k) then None else if HasKey(env, k) then Lookup(env, k) else Lookup(yaml, k)
  {
    var env := EnvConfOf(prefix, environ);
    EnvConfWellFormed(prefix, environ);
    KeepAllowedLookup(Merge(yaml, env), k);
    MergeLookup(yaml, env, k);
  }

  // ---------------------------------------------------------------------------------
  // Provider choice

  datatype Provider = GoogleAIStudio | AzureOpenAI | Dashscope | DeepSeek | OpenAI

  /** A chat model: its class and the keyword arguments it is constructed with. */
  datatype Llm = Llm(provider: Provider, kwargs: Entries)

  /** Stand-ins for the `httpx` clients built with `verify=False`. */
  const SyncClient: Value := Str("httpx.Client(verify=False)")
  const AsyncClient: Value := Str("httpx.AsyncClient(verify=False)")

  const NoConfiguration := "ValueError: No configuration found for LLM type"

  /** The steps common to every provider: max_retries defaults to 3, verify_ssl is
      popped, and a falsy verify_ssl installs the unverified clients. */
  function Prepared(c: Entries): Entries
  {
    var withRetries := if HasKey(c, "max_retries") then c else Put(c, "max_retries", Num(3.0));
    var verify := Lookup(withRetries, "verify_ssl").GetOr(Bool(true));
    var noVerify := Remove(withRetries, "verify_ssl");
    if Truthy(verify) then noVerify
    else Put(Put(noVerify, "http_client", SyncClient), "http_async_client", AsyncClient)
  }

  /** The preparation touches only its own keys; max_retries defaults to 3 and verify_ssl
      is gone. */
  lemma PreparedLookup(c: Entries, k: string)
    ensures k == "max_retries" ==> Lookup(Prepared(c), k) == Some(Lookup(c, k).GetOr(Num(3.0)))
    ensures k == "verify_ssl" ==> Lookup(Prepared(c), k).None?
    ensures k !in {"max_retries", "verify_ssl", "http_client", "http_async_client"} ==>
      Lookup(Prepared(c), k) == Lookup(c, k)
  {
    LookupSomeIffHasKey(c, "max_retries");
    var withRetries := if HasKey(c, "max_retries") then c else Put(c, "max_retries", Num(3.0));
    PutLookup(c, "max_retries", Num(3.0), k);
    var noVerify := Remove(withRetries, "verify_ssl");
    RemoveLookup(withRetries, "verify_ssl", k);
    PutLookup(noVerify, "http_client", SyncClient, k);
    PutLookup(Put(noVerify, "http_client", SyncClient), "http_async_client", AsyncClient, k);
  }

  /** `merged_conf.get("platform", "").lower()`. */
  function Platform(c: Entries): Result<string, string>
  {
    match Lookup(c, "platform")
    case None => Ok("")
    case Some(Str(p)) => Ok(Lower(p))
    case Some(_) => Err("AttributeError: platform has no lower()")
  }

  /** `"dashscope." in merged_conf["base_url"]`, with Python's `in` on each kind of value. */
  function IsDashscope(c: Entries): Result<bool, string>
  {
    match Lookup(c, "base_url")
    case None => Ok(false)
    case Some(Str(s)) => Ok(Contains(s, "dashscope."))
    case Some(List(xs)) => Ok(Str("dashscope.") in xs)
    case Some(Dict(es)) => Ok(HasKey(es, "dashscope."))
    case Some(_) => Err("TypeError: argument of type is not iterable")
  }

  /** The Google AI Studio arguments: api_key renamed to google_api_key; base_url,
      platform and the HTTP clients dropped. */
  function GeminiConf(c: Entries): Entries
  {
    var renamed := match Lookup(c, "api_key")
                   case Some(key) => Put(Remove(c, "api_key"), "google_api_key", key)
                   case None => c;
    Remove(Remove(Remove(Remove(renamed, "base_url"), "platform"), "http_client"), "http_async_client")
  }

  lemma GeminiConfLookup(c: Entries, k: string)
    ensures k in {"api_key", "base_url", "platform", "http_client", "http_async_client"} ==>
      Lookup(GeminiConf(c), k).None?
    ensures k == "google_api_key" ==>
      Lookup(GeminiConf(c), k) == if Lookup(c, "api_key").Some? then Lookup(c, "api_key") else Lookup(c, k)
    ensures k !in {"api_key", "google_api_key", "base_url", "platform", "http_client", "http_async_client"} ==>
      Lookup(GeminiConf(c), k) == Lookup(c, k)
  {
    var renamed := match Lookup(c, "api_key")
                   case Some(key) => Put(Remove(c, "api_key"), "google_api_key", key)
                   case None => c;
    if Lookup(c, "api_key").Some? {
      RemoveLookup(c, "api_key", k);
      PutLookup(Remove(c, "api_key"), "google_api_key", Lookup(c, "api_key").value, k);
    }
    RemoveLookup(renamed, "base_url", k);
    RemoveLookup(Remove(renamed, "base_url"), "platform", k);
    RemoveLookup(Remove(Remove(renamed, "base_url"), "platform"), "http_client", k);
    RemoveLookup(Remove(Remove(Remove(renamed, "base_url"), "platform"), "http_client"), "http_async_client", k);
  }

  /** The provider, in priority order: Google AI Studio by platform, Azure by endpoint
      (configured, or set in the environment: `azureEnv`), Dashscope by base URL,
      DeepSeek for reasoning, OpenAI otherwise. */
  function Choose(llmType: string, c: Entries, azureEnv: bool): Result<Llm, string>
  {
    var platform :- Platform(c);
    if platform == "google_aistudio" || platform == "google-aistudio" then Ok(Llm(GoogleAIStudio, GeminiConf(c)))
    else if HasKey(c, "azure_endpoint") || azureEnv then Ok(Llm(AzureOpenAI, c))
    else
      var dashscope :- IsDashscope(c);
      if dashscope then
        Ok(Llm(Dashscope, Put(c, "extra_body", Dict([("enable_thinking", Bool(llmType == "reasoning"))]))))
      else if llmType == "reasoning" then
        Ok(Llm(DeepSeek, Put(Remove(c, "base_url"), "api_base", Lookup(c, "base_url").GetOr(Null))))
      else Ok(Llm(OpenAI, c))
  }

  /** The part of `_create_llm_use_conf` after the filter. */
  function Configure(llmType: string, filtered: Entries, azureEnv: bool): (r: Result<Llm, string>)
    ensures r == Err(NoConfiguration) <==> Remove(filtered, "token_limit") == []
  {
    var c := Remove(filtered, "token_limit");
    if c == [] then Err(NoConfiguration)
    else Choose(llmType, Prepared(c), azureEnv)
  }

  /** The keyword arguments never carry token_limit or verify_ssl, and always carry
      max_retries: the configured value, else 3. */
  lemma ConfiguredArguments(llmType: string, filtered: Entries, azureEnv: bool)
    requires Configure(llmType, filtered, azureEnv).Ok?
    ensures var kw := Configure(llmType, filtered, azureEnv).value.kwargs;
      Lookup(kw, "token_limit").None? && Lookup(kw, "verify_ssl").None? &&
      Lookup(kw, "max_retries") == Some(Lookup(filtered, "max_retries").GetOr(Num(3.0)))
  {
    var c := Remove(filtered, "token_limit");
    var p := Prepared(c);
    RemoveLookup(filtered, "token_limit", "token_limit");
    RemoveLookup(filtered, "token_limit", "max_retries");
    PreparedLookup(c, "token_limit");
    PreparedLookup(c, "verify_ssl");
    PreparedLookup(c, "max_retries");
    ChooseKeeps(llmType, p, azureEnv, "token_limit");
    ChooseKeeps(llmType, p, azureEnv, "verify_ssl");
    ChooseKeeps(llmType, p, azureEnv, "max_retries");
  }

  /** No provider touches these three keys. */
  lemma ChooseKeeps(llmType: string, p: Entries, azureEnv: bool, k: string)
    requires Choose(llmType, p, azureEnv).Ok? && k in {"token_limit", "verify_ssl", "max_retries"}
    ensures Lookup(Choose(llmType, p, azureEnv).value.kwargs, k) == Lookup(p, k)
  {
    GeminiConfLookup(p, k);
    PutLookup(p, "extra_body", Dict([("enable_thinking", Bool(llmType == "reasoning"))]), k);
    RemoveLookup(p, "base_url", k);
    PutLookup(Remove(p, "base_url"), "api_base", Lookup(p, "base_url").GetOr(Null), k);
  }

  /** A Google AI Studio platform wins over every other provider. */
  lemma GooglePlatformWins(llmType: string, c: Entries, azureEnv: bool, p: string)
    requires Lookup(c, "platform") == Some(Str(p)) && Lower(p) in {"google_aistudio", "google-aistudio"}
    ensures Choose(llmType, c, azureEnv) == Ok(Llm(GoogleAIStudio, GeminiConf(c)))
  {
  }

  /** Otherwise an Azure endpoint wins, whatever the base URL. */
  lemma AzureBeforeDashscope(llmType: string, c: Entries)
    requires Lookup(c, "platform").None?
    ensures Choose(llmType, c, true) == Ok(Llm(AzureOpenAI, c))
  {
  }

  /** A Dashscope base URL asks for thinking exactly for the reasoning type. */
  lemma DashscopeThinking(llmType: string, c: Entries, url: string)
    requires Lookup(c, "platform").None? && !HasKey(c, "azure_endpoint")
    requires Lookup(c, "base_url") == Some(Str(url)) && Contains(url, "dashscope.")
    ensures var r := Choose(llmType, c, false);
      r.Ok? && r.value.provider == Dashscope &&
      Lookup(r.value.kwargs, "extra_body") == Some(Dict([("enable_thinking", Bool(llmType == "reasoning"))]))
  {
    PutLookup(c, "extra_body", Dict([("enable_thinking", Bool(llmType == "reasoning"))]), "extra_body");
  }

  /** The reasoning type otherwise goes to DeepSeek, its base URL moved to api_base. */
  lemma ReasoningMovesBaseUrl(c: Entries)
    requires Lookup(c, "platform").None? && !HasKey(c, "azure_endpoint")
    requires Lookup(c, "base_url").None? || (Lookup(c, "base_url").value.Str? &&
      !Contains(Lookup(c, "base_url").value.s, "dashscope."))
    ensures var r := Choose("reasoning", c, false);
      r.Ok? && r.value.provider == DeepSeek &&
      Lookup(r.value.kwargs, "base_url").None? &&
      Lookup(r.value.kwargs, "api_base") == Some(Lookup(c, "base_url").GetOr(Null))
  {
    RemoveLookup(c, "base_url", "base_url");
    PutLookup(Remove(c, "base_url"), "api_base", Lookup(c, "base_url").GetOr(Null), "base_url");
    PutLookup(Remove(c, "base_url"), "api_base", Lookup(c, "base_url").GetOr(Null), "api_base");
  }

  /** Any other type gets OpenAI with the arguments unchanged. */
  lemma OtherTypesUseOpenAI(llmType: string, c: Entries)
    requires llmType != "reasoning"
    requires Lookup(c, "platform").None? && !HasKey(c, "azure_endpoint")
    requires Lookup(c, "base_url").None? || (Lookup(c, "base_url").value.Str? &&
      !Contains(Lookup(c, "base_url").value.s, "dashscope."))
    ensures Choose(llmType, c, false) == Ok(Llm(OpenAI, c))
  {
  }

  /** `_create_llm_use_conf` over the loaded configuration and the environment. */
  function CreateSpec(llmType: string, conf: Entries, environ: seq<(string, string)>, azureEnv: bool)
    : (r: Result<Llm, string>)
    ensures ConfigKey(llmType).None? ==> r.Err?
  {
    match ConfigKey(llmType)
    case None => Err("ValueError: Unknown LLM type")
    case Some(key) =>
      var llmConf := Lookup(conf, key).GetOr(Dict([]));
      if !llmConf.Dict? then Err("ValueError: Invalid LLM configuration")
      else Configure(llmType, KeepAllowed(Merge(llmConf.entries, EnvConfOf(EnvPrefix(llmType), environ))), azureEnv)
  }

  /** `_create_llm_use_conf`, with its two loops. */
  method CreateLlmUseConf(llmType: string, conf: Entries, environ: seq<(string, string)>, azureEnv: bool)
    returns (r: Result<Llm, string>)
    ensures r == CreateSpec(llmType, conf, environ, azureEnv)
  {
    var key := ConfigKey(llmType);
    if key.None? {
      return Err("ValueError: Unknown LLM type");
    }
    var llmConf := Lookup(conf, key.value).GetOr(Dict([]));
    if !llmConf.Dict? {
      return Err("ValueError: Invalid LLM configuration");
    }
    var envConf := EnvLlmConf(llmType, environ);
    var filtered := DropUnexpected(Merge(llmConf.entries, envConf));
    r := Configure(llmType, filtered, azureEnv);
  }

  /** The per-type cache of `get_llm_by_type`. */
  class LlmCache {
    var cache: map<string, Llm>

    constructor()
      ensures cache == map[]
    {
      cache := map[];
    }

    /** Every cached model is the one the configuration creates for its type. */
    predicate Agrees(conf: Entries, environ: seq<(string, string)>, azureEnv: bool)
      reads this
    {
      forall t :: t in cache ==> CreateSpec(t, conf, environ, azureEnv) == Ok(cache[t])
    }

    /** A cached type returns its model and reads nothing; otherwise the model is created
        and, when creation succeeds, stored. */
    method GetLlmByType(llmType: string, conf: Entries, environ: seq<(string, string)>, azureEnv: bool)
      returns (r: Result<Llm, string>)
      modifies this
      ensures llmType in old(cache) ==> r == Ok(old(cache)[llmType]) && cache == old(cache)
      ensures llmType !in old(cache) ==> (r == CreateSpec(llmType, conf, environ, azureEnv) &&
        cache == if r.Ok? then old(cache)[llmType := r.value] else old(cache))
      ensures old(Agrees(conf, environ, azureEnv)) ==> Agrees(conf, environ, azureEnv)
    {
      if llmType in cache {
        return Ok(cache[llmType]);
      }
      r := CreateLlmUseConf(llmType, conf, environ, azureEnv);
      if r.Ok? {
        cache := cache[llmType := r.value];
      }
    }
  }
}
