// Configuration loading (config/loader.py): typed reads of environment variables, the
// "$NAME" substitution applied to every string of the YAML document, and the per-path
// cache of processed documents. The environment is a map; whether the file exists and
// the document `yaml.safe_load` gives for each path are parameters.
module ConfigLoader {
  import opened Wrappers
  import opened Strings
  import opened Values

  type Env = map<string, string>

  /** The values `get_bool_env` reads as true. */
  const TrueWords: set<string> := {"1", "yes", "on", "true", "y"}

  /** `get_bool_env`. */
  function GetBoolEnv(env: Env, name: string, default: bool): bool
  {
    if name !in env then default else Lower(Strip(env[name])) in TrueWords
  }

  /** An unset variable gives the default. */
  lemma BoolEnvUnset(env: Env, name: string, default: bool)
    requires name !in env
    ensures GetBoolEnv(env, name, default) == default
  {
  }

  /** A set variable decides alone: the default no longer matters. */
  lemma BoolEnvSetIgnoresDefault(env: Env, name: string)
    requires name in env
    ensures GetBoolEnv(env, name, true) == GetBoolEnv(env, name, false)
  {
  }

  /** Surrounding whitespace does not change the reading. */
  lemma BoolEnvIgnoresSpace(env: Env, name: string, s: string, default: bool)
    ensures GetBoolEnv(env[name := s], name, default) == GetBoolEnv(env[name := Strip(s)], name, default)
  {
    StripIdempotent(s);
  }

  /** "Yes" is read as true, whatever the default. */
  lemma BoolEnvYes(env: Env, name: string, default: bool)
    ensures GetBoolEnv(env[name := "Yes"], name, default)
  {
    StripOfTrimmed("Yes");
    var low := Lower("Yes");
    assert low[0] == 'y' && low[1] == 'e' && low[2] == 's';
    assert low == "yes";
  }

  /** A word already trimmed and in lower case is read as itself. */
  lemma BoolEnvOfPlainWord(env: Env, name: string, w: string, default: bool)
    requires Strip(w) == w && Lower(w) == w
    ensures GetBoolEnv(env[name := w], name, default) == (w in TrueWords)
  {
  }

  /** `get_str_env`. */
  function GetStrEnv(env: Env, name: string, default: string): (r: string)
    ensures name in env ==> r == [] || (!IsSpace(r[0]) && !IsSpace(r[|r| - 1]))
    ensures name !in env ==> r == default
  {
    if name !in env then default else Strip(env[name])
  }

  /** Reading a value back after storing what was read gives the same text. */
  lemma StrEnvStable(env: Env, name: string, default: string)
    requires name in env
    ensures GetStrEnv(env[name := GetStrEnv(env, name, default)], name, default) == GetStrEnv(env, name, default)
  {
    StripIdempotent(env[name]);
  }

  /** `get_int_env`: the `ValueError` of an unparsable value gives the default. */
  function GetIntEnv(env: Env, name: string, default: int): int
  {
    if name !in env then default
    else
      match ParseInt(Strip(env[name]))
      case Some(n) => n
      case None => default
  }

  /** An unset or unparsable variable gives the default. */
  lemma IntEnvDefault(env: Env, name: string, default: int)
    requires name !in env || ParseInt(env[name]).None?
    ensures GetIntEnv(env, name, default) == default
  {
    if name in env {
      StripIdempotent(env[name]);
    }
  }

  /** A decimal numeral is read as its value. */
  lemma IntEnvNumeral(env: Env, name: string, n: nat, default: int)
    ensures GetIntEnv(env[name := NatToString(n)], name, default) == n
  {
    var s := NatToString(n);
    StripOfTrimmed(s);
    ParseIntOfNat(n);
  }

  /** Any numeral, digit groups joined by single underscores included, is read as its
      value, as `int` reads it. */
  lemma IntEnvGrouped(env: Env, name: string, t: string, default: int)
    requires IsNumeral(t)
    ensures GetIntEnv(env[name := t], name, default) == NumeralValue(t)
  {
    assert !IsSpace(t[0]) && !IsSpace(t[|t| - 1]);
    StripOfTrimmed(t);
    ParseIntOfNumeral(t);
  }

  /** `replace_env_vars`: "$NAME" becomes the value of NAME, or NAME itself when it is
      unset; every other value is left as it is. */
  function ReplaceEnvVars(v: Value, env: Env): (r: Value)
    ensures r.Str? <==> v.Str?
    ensures !v.Str? || !StartsWith(v.s, "$") ==> r == v
  {
    if v.Str? && StartsWith(v.s, "$") then
      var name := v.s[1..];
      Str(if name in env then env[name] else name)
    else v
  }

  /** A reference to a set variable gives its value. */
  lemma ReferenceToSetVariable(env: Env, name: string)
    requires name in env
    ensures ReplaceEnvVars(Str("$" + name), env) == Str(env[name])
  {
    assert ("$" + name)[1..] == name;
  }

  /** A reference to an unset variable gives the variable's name. */
  lemma ReferenceToUnsetVariable(env: Env, name: string)
    requires name !in env
    ensures ReplaceEnvVars(Str("$" + name), env) == Str(name)
  {
    assert ("$" + name)[1..] == name;
  }

  /** What `process_dict` makes of one value: dicts are processed recursively, strings
      substituted, and everything else (lists included) kept. */
  function ProcessValue(v: Value, env: Env): (r: Value)
    ensures !v.Dict? && !v.Str? ==> r == v
    ensures v.Dict? ==> r.Dict? && Keys(r.entries) == Keys(v.entries)
    decreases v
  {
    match v
    case Dict(es) =>
      var r := seq(|es|, i requires 0 <= i < |es| => (es[i].0, ProcessValue(es[i].1, env)));
      KeysOfRelabel(es, r);
      Dict(r)
    case Str(_) => ReplaceEnvVars(v, env)
    case _ => v
  }

  /** Two entry lists with the same keys at every position have the same key sequence. */
  lemma {:induction false} KeysOfRelabel(a: Entries, b: Entries)
    requires |a| == |b| && forall i :: 0 <= i < |a| ==> a[i].0 == b[i].0
    ensures Keys(a) == Keys(b)
  {
    if |a| > 0 {
      assert forall i :: 0 <= i < |a| - 1 ==> a[1..][i].0 == b[1..][i].0;
      KeysOfRelabel(a[1..], b[1..]);
    }
  }

  type Entries = seq<(string, Value)>

  /** `process_dict` on what `yaml.safe_load` gave: a falsy document is the empty dict; a
      non-empty document that is not a dict has no `items`. */
  function ProcessConfig(config: Value, env: Env): (r: Result<Entries, string>)
    ensures !Truthy(config) ==> r == Ok([])
    ensures r.Ok? && config.Dict? ==> Keys(r.value) == Keys(config.entries)
  {
    if !Truthy(config) then Ok([])
    else if config.Dict? then Ok(ProcessValue(config, env).entries)
    else Err("AttributeError: document has no attribute 'items'")
  }

  /** Each key of the result holds the processed value of the same key. */
  lemma ProcessedLookup(es: Entries, env: Env, k: string)
    ensures Lookup(ProcessValue(Dict(es), env).entries, k) ==
      match Lookup(es, k) case Some(v) => Some(ProcessValue(v, env)) case None => None
    decreases |es|
  {
    if |es| > 0 {
      var r := ProcessValue(Dict(es), env).entries;
      assert r[1..] == ProcessValue(Dict(es[1..]), env).entries;
      ProcessedLookup(es[1..], env, k);
    }
  }

  /** No string in the value is a "$" reference. */
  predicate NoReferences(v: Value)
    decreases v
  {
    match v
    case Str(s) => !StartsWith(s, "$")
    case Dict(es) => forall i :: 0 <= i < |es| ==> NoReferences(es[i].1)
    case _ => true
  }

  /** A document without references comes back unchanged. */
  lemma {:induction false} NoReferencesUnchanged(v: Value, env: Env)
    requires NoReferences(v)
    ensures ProcessValue(v, env) == v
    decreases v
  {
    if v.Dict? {
      var es := v.entries;
      forall i | 0 <= i < |es|
        ensures ProcessValue(es[i].1, env) == es[i].1
      {
        NoReferencesUnchanged(es[i].1, env);
      }
      assert ProcessValue(v, env).entries == es;
    }
  }

  /** `process_dict`: a loop filling a fresh dict, recursing into nested dicts. Each key
      of a dict is new to the result, so each store appends. */
  method ProcessDict(config: Value, env: Env) returns (r: Result<Entries, string>)
    ensures r == ProcessConfig(config, env)
    decreases config
  {
    if !Truthy(config) {
      return Ok([]);
    }
    if !config.Dict? {
      return Err("AttributeError: document has no attribute 'items'");
    }
    var es := config.entries;
    var result: Entries := [];
    var i := 0;
    while i < |es|
      invariant 0 <= i <= |es|
      invariant |result| == i
      invariant forall j :: 0 <= j < i ==> result[j] == (es[j].0, ProcessValue(es[j].1, env))
    {
      var (key, value) := es[i];
      var processed: Value;
      if value.Dict? {
        var nested := ProcessDict(value, env);
        processed := Dict(if nested.Ok? then nested.value else []);
        assert processed == ProcessValue(value, env);
      } else if value.Str? {
        processed := ReplaceEnvVars(value, env);
      } else {
        processed := value;
      }
      result := result + [(key, processed)];
      i := i + 1;
    }
    assert result == ProcessValue(config, env).entries;
    r := Ok(result);
  }

  /** The module-level `_config_cache` and `load_yaml_config`. */
  class ConfigCache {
    var cache: map<string, Entries>

    constructor()
      ensures cache == map[]
    {
      cache := map[];
    }

    /** Every cached document is the processed form of the file's document. */
    predicate Agrees(documents: string -> Value, env: Env)
      reads this
    {
      forall p :: p in cache ==> ProcessConfig(documents(p), env) == Ok(cache[p])
    }

    /** A missing file is the empty dict and is never cached; a cached path returns its
        document without reading the file; otherwise the file's document is processed
        and stored. */
    method LoadYamlConfig(path: string, fileExists: bool, documents: string -> Value, env: Env)
      returns (r: Result<Entries, string>)
      modifies this
      ensures !fileExists ==> r == Ok([]) && cache == old(cache)
      ensures fileExists && path in old(cache) ==> r == Ok(old(cache)[path]) && cache == old(cache)
      ensures fileExists && path !in old(cache) ==> (r == ProcessConfig(documents(path), env) &&
        cache == if r.Ok? then old(cache)[path := r.value] else old(cache))
      ensures old(Agrees(documents, env)) ==> Agrees(documents, env)
    {
      if !fileExists {
        return Ok([]);
      }
      if path in cache {
        return Ok(cache[path]);
      }
      r := ProcessDict(documents(path), env);
      if r.Ok? {
        cache := cache[path := r.value];
      }
    }
  }
}
