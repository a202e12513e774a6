/**
 * The Python helper's `Settings` object (OpenAI/config.py): declared field
 * defaults, and the environment-override step that `__init__` runs after the
 * settings library has resolved the fields.
 *
 * The library's resolution (.env file, field-name lookup, required-field
 * errors) is not modelled: its result is the input `resolved`. The process
 * environment is a string-to-string map; `os.getenv(name)` is truthy exactly
 * when the name is present with a non-empty value.
 */
module OpenAIConfig {
  import opened Common

  type Env = map<string, string>

  /** `os.getenv(name)` is truthy. */
  predicate Truthy(env: Env, name: string)
  {
    name in env && env[name] != ""
  }

  datatype Fields = Fields(
    openaiApiKey: string,
    openaiModel: string,
    maxTokens: int,
    temperature: real,
    mongodbUri: string,
    apiRateLimit: int,
    timeout: int)

  const DefaultModel: string := "gpt-4o-mini"
  const DefaultMaxTokens: int := 1000
  const DefaultTemperature: real := 0.7
  const DefaultApiRateLimit: int := 60
  const DefaultTimeout: int := 30

  /** The fields as the class declares them; the API key and the MongoDB URI have no default. */
  function Declared(openaiApiKey: string, mongodbUri: string): (f: Fields)
    ensures f.openaiApiKey == openaiApiKey && f.mongodbUri == mongodbUri
    ensures f.openaiModel == "gpt-4o-mini" && f.maxTokens == 1000 && f.temperature == 0.7
    ensures f.apiRateLimit == 60 && f.timeout == 30
  {
    Fields(openaiApiKey, DefaultModel, DefaultMaxTokens, DefaultTemperature,
           mongodbUri, DefaultApiRateLimit, DefaultTimeout)
  }

  // ---- Python `int(str)` in base 10 ----

  /** Characters Python's `str.strip()` removes (and `int()` ignores around a number). */
  predicate IsPySpace(c: char)
  {
    c == ' ' || ('\t' <= c <= '\r') || ('\U{001C}' <= c <= '\U{001F}') || c == '\U{0085}'
    || c == '\U{00A0}' || c == '\U{1680}' || ('\U{2000}' <= c <= '\U{200A}')
    || c == '\U{2028}' || c == '\U{2029}' || c == '\U{202F}' || c == '\U{205F}' || c == '\U{3000}'
  }

  function PyStripStart(s: string): (r: string)
    ensures |r| <= |s|
  {
    if |s| > 0 && IsPySpace(s[0]) then PyStripStart(s[1..]) else s
  }

  function PyStripEnd(s: string): (r: string)
    ensures |r| <= |s|
  {
    if |s| > 0 && IsPySpace(s[|s| - 1]) then PyStripEnd(s[..|s| - 1]) else s
  }

  function PyStrip(s: string): string
  {
    PyStripEnd(PyStripStart(s))
  }

  predicate DigitsOrUnderscores(b: string)
  {
    forall i :: 0 <= i < |b| ==> IsDigit(b[i]) || b[i] == '_'
  }

  /** A digit group as base-10 `int()` accepts it: digits, single underscores only between digits. */
  predicate IsDigitGroup(b: string)
  {
    && |b| > 0 && IsDigit(b[0]) && IsDigit(b[|b| - 1])
    && DigitsOrUnderscores(b)
    && (forall i :: 0 <= i < |b| - 1 ==> b[i] == '_' ==> b[i + 1] != '_')
  }

  /** The number a digit group denotes: its digits read in order, underscores ignored. */
  function GroupValue(b: string): nat
    requires DigitsOrUnderscores(b)
  {
    if b == [] then 0
    else if b[|b| - 1] == '_' then GroupValue(b[..|b| - 1])
    else 10 * GroupValue(b[..|b| - 1]) + DigitValue(b[|b| - 1])
  }

  lemma {:induction false} GroupValueOfDigits(b: string)
    requires AllDigits(b)
    ensures DigitsOrUnderscores(b) && GroupValue(b) == DecimalValue(b)
  {
    if b != [] {
      GroupValueOfDigits(b[..|b| - 1]);
    }
  }

  /** The digit group after an optional sign, or `None`. */
  function SignedGroup(t: string): Option<int>
  {
    if |t| > 0 && (t[0] == '-' || t[0] == '+') then
      var body := t[1..];
      if IsDigitGroup(body) then
        var v: int := GroupValue(body);
        Some(if t[0] == '-' then -v else v)
      else None
    else if IsDigitGroup(t) then Some(GroupValue(t))
    else None
  }

  /** Python `int(s)`: `None` stands for the `ValueError` it raises. */
  function PyInt(s: string): Option<int>
  {
    SignedGroup(PyStrip(s))
  }

  lemma PyStripOfTrimmed(s: string)
    requires |s| > 0 && !IsPySpace(s[0]) && !IsPySpace(s[|s| - 1])
    ensures PyStrip(s) == s
  {
  }

  /** A rendered natural number is a digit group whose value is the number. */
  lemma DecimalIsGroup(m: nat)
    ensures IsDigitGroup(NatToDecimal(m))
    ensures GroupValue(NatToDecimal(m)) == m
  {
    GroupValueOfDigits(NatToDecimal(m));
  }

  lemma SignedGroupOfDecimal(n: int)
    ensures SignedGroup(IntToDecimal(n)) == Some(n)
  {
    var m: nat := if n < 0 then -n else n;
    var d := NatToDecimal(m);
    DecimalIsGroup(m);
    if n < 0 {
      var s := "-" + d;
      assert s[1..] == d;
      assert SignedGroup(s) == Some(n);
    } else {
      assert IsDigit(d[0]);
      assert SignedGroup(d) == Some(n);
    }
  }

  /** `int(str(n)) == n`: every integer's decimal rendering parses back to it. */
  lemma PyIntOfDecimal(n: int)
    ensures PyInt(IntToDecimal(n)) == Some(n)
  {
    var s := IntToDecimal(n);
    var d := NatToDecimal(if n < 0 then -n else n);
    assert IsDigit(d[0]) && IsDigit(d[|d| - 1]);
    assert s[|s| - 1] == d[|d| - 1];
    PyStripOfTrimmed(s);
    SignedGroupOfDecimal(n);
  }

  /** There is no positivity check: "-5" gives -5. */
  lemma PyIntNegativeExample()
    ensures PyInt("-5") == Some(-5)
  {
    PyIntOfDecimal(-5);
    assert IntToDecimal(-5) == "-5";
  }

  /** Text that is not a number is refused. */
  lemma PyIntRejectsWord()
    ensures PyInt("many") == None
  {
    var s := "many";
    assert !IsPySpace(s[0]) && !IsPySpace(s[|s| - 1]);
    PyStripOfTrimmed(s);
    assert !IsDigit(s[0]) && s[0] != '-' && s[0] != '+';
  }

  // ---- The override step ----

  /**
   * The fields after the overrides, applied field by field in the order
   * the constructor runs them.
   */
  function Overridden(f: Fields, env: Env, parseFloat: string -> Option<real>): Fields
  {
    f.(openaiApiKey := TextOverride(env, "OPENAI_API_KEY", f.openaiApiKey),
       openaiModel := TextOverride(env, "MODEL_NAME", f.openaiModel),
       maxTokens := TokensOverride(env, f.maxTokens),
       temperature := TemperatureOverride(env, parseFloat, f.temperature),
       mongodbUri := TextOverride(env, "MONGODB_URI", f.mongodbUri))
  }

  /** A string field: the variable's value when it is truthy. */
  function TextOverride(env: Env, name: string, current: string): string
  {
    if Truthy(env, name) then env[name] else current
  }

  /** `max_tokens`: `int()` of a truthy `MAX_TOKENS`, 1000 when that raises. */
  function TokensOverride(env: Env, current: int): int
  {
    if !Truthy(env, "MAX_TOKENS") then current
    else match PyInt(env["MAX_TOKENS"]) case Some(n) => n case None => 1000
  }

  /** `temperature`: `float()` of a truthy `TEMPERATURE`, 0.7 when that raises. */
  function TemperatureOverride(env: Env, parseFloat: string -> Option<real>, current: real): real
  {
    if !Truthy(env, "TEMPERATURE") then current
    else match parseFloat(env["TEMPERATURE"]) case Some(x) => x case None => 0.7
  }

  class Settings {
    var openaiApiKey: string
    var openaiModel: string
    var maxTokens: int
    var temperature: real
    var mongodbUri: string
    var apiRateLimit: int
    var timeout: int

    function Current(): Fields
      reads this
    {
      Fields(openaiApiKey, openaiModel, maxTokens, temperature, mongodbUri, apiRateLimit, timeout)
    }

    /** `Settings(**kwargs)`: start from the resolved fields, then apply the overrides. */
    constructor (resolved: Fields, env: Env, parseFloat: string -> Option<real>)
      ensures Current() == Overridden(resolved, env, parseFloat)
    {
      openaiApiKey, openaiModel, maxTokens := resolved.openaiApiKey, resolved.openaiModel, resolved.maxTokens;
      temperature, mongodbUri := resolved.temperature, resolved.mongodbUri;
      apiRateLimit, timeout := resolved.apiRateLimit, resolved.timeout;
      new;
      ApplyOverrides(env, parseFloat);
    }

    /** The five `if os.getenv(...)` blocks of `__init__`, in order. */
    method ApplyOverrides(env: Env, parseFloat: string -> Option<real>)
      modifies this
      ensures Current() == Overridden(old(Current()), env, parseFloat)
    {
      OverrideApiKey(env);
      OverrideModel(env);
      OverrideMaxTokens(env);
      OverrideTemperature(env, parseFloat);
      OverrideMongodbUri(env);
    }

    method OverrideApiKey(env: Env)
      modifies this`openaiApiKey
      ensures openaiApiKey == TextOverride(env, "OPENAI_API_KEY", old(openaiApiKey))
    {
      if Truthy(env, "OPENAI_API_KEY") {
        openaiApiKey := env["OPENAI_API_KEY"];
      }
    }

    method OverrideModel(env: Env)
      modifies this`openaiModel
      ensures openaiModel == TextOverride(env, "MODEL_NAME", old(openaiModel))
    {
      if Truthy(env, "MODEL_NAME") {
        openaiModel := env["MODEL_NAME"];
      }
    }

    /** `int()` may raise; the `except` sets the literal 1000. */
    method OverrideMaxTokens(env: Env)
      modifies this`maxTokens
      ensures maxTokens == TokensOverride(env, old(maxTokens))
    {
      if Truthy(env, "MAX_TOKENS") {
        var parsed := PyInt(env["MAX_TOKENS"]);
        if parsed.Some? {
          maxTokens := parsed.value;
        } else {
          maxTokens := 1000;
        }
      }
    }

    /** `float()` may raise; the `except` sets the literal 0.7. */
    method OverrideTemperature(env: Env, parseFloat: string -> Option<real>)
      modifies this`temperature
      ensures temperature == TemperatureOverride(env, parseFloat, old(temperature))
    {
      if Truthy(env, "TEMPERATURE") {
        var parsed := parseFloat(env["TEMPERATURE"]);
        if parsed.Some? {
          temperature := parsed.value;
        } else {
          temperature := 0.7;
        }
      }
    }

    method OverrideMongodbUri(env: Env)
      modifies this`mongodbUri
      ensures mongodbUri == TextOverride(env, "MONGODB_URI", old(mongodbUri))
    {
      if Truthy(env, "MONGODB_URI") {
        mongodbUri := env["MONGODB_URI"];
      }
    }
  }

  // ---- Properties of the override step ----

  /** An absent or empty variable leaves its field as resolution produced it. */
  lemma UntruthyLeavesField(f: Fields, env: Env, parseFloat: string -> Option<real>)
    ensures var r := Overridden(f, env, parseFloat);
      && (!Truthy(env, "OPENAI_API_KEY") ==> r.openaiApiKey == f.openaiApiKey)
      && (!Truthy(env, "MODEL_NAME") ==> r.openaiModel == f.openaiModel)
      && (!Truthy(env, "MAX_TOKENS") ==> r.maxTokens == f.maxTokens)
      && (!Truthy(env, "TEMPERATURE") ==> r.temperature == f.temperature)
      && (!Truthy(env, "MONGODB_URI") ==> r.mongodbUri == f.mongodbUri)
  {
  }

  /** The key, `MODEL_NAME` and the URI are copied verbatim when set. */
  lemma VerbatimCopies(f: Fields, env: Env, parseFloat: string -> Option<real>)
    ensures var r := Overridden(f, env, parseFloat);
      && (Truthy(env, "OPENAI_API_KEY") ==> r.openaiApiKey == env["OPENAI_API_KEY"])
      && (Truthy(env, "MODEL_NAME") ==> r.openaiModel == env["MODEL_NAME"])
      && (Truthy(env, "MONGODB_URI") ==> r.mongodbUri == env["MONGODB_URI"])
  {
  }

  /**
   * A set `MAX_TOKENS` gives the parsed integer, whatever its sign, and a
   * value `int()` refuses gives the literal 1000, not the resolved value.
   */
  lemma MaxTokensOverride(f: Fields, env: Env, parseFloat: string -> Option<real>)
    requires Truthy(env, "MAX_TOKENS")
    ensures var r := Overridden(f, env, parseFloat);
      && (PyInt(env["MAX_TOKENS"]).Some? ==> r.maxTokens == PyInt(env["MAX_TOKENS"]).value)
      && (PyInt(env["MAX_TOKENS"]).None? ==> r.maxTokens == 1000)
  {
  }

  lemma MaxTokensFromDecimal(f: Fields, env: Env, parseFloat: string -> Option<real>, n: int)
    requires "MAX_TOKENS" in env && env["MAX_TOKENS"] == IntToDecimal(n)
    ensures Overridden(f, env, parseFloat).maxTokens == n
  {
    PyIntOfDecimal(n);
  }

  /** A `TEMPERATURE` the float parser refuses gives 0.7; an accepted one is taken without range check. */
  lemma TemperatureOverrides(f: Fields, env: Env, parseFloat: string -> Option<real>)
    requires Truthy(env, "TEMPERATURE")
    ensures var r := Overridden(f, env, parseFloat);
      && (parseFloat(env["TEMPERATURE"]).Some? ==> r.temperature == parseFloat(env["TEMPERATURE"]).value)
      && (parseFloat(env["TEMPERATURE"]).None? ==> r.temperature == 0.7)
  {
  }

  /** `api_rate_limit` and `timeout` are never overridden. */
  lemma RateLimitAndTimeoutFixed(f: Fields, env: Env, parseFloat: string -> Option<real>)
    ensures Overridden(f, env, parseFloat).apiRateLimit == f.apiRateLimit
    ensures Overridden(f, env, parseFloat).timeout == f.timeout
  {
  }

  /** With no overriding variables the declared defaults survive. */
  lemma EmptyEnvironmentKeepsDefaults(key: string, uri: string, parseFloat: string -> Option<real>)
    ensures Overridden(Declared(key, uri), map[], parseFloat) == Declared(key, uri)
  {
  }

  /** Running the override step twice with one environment equals running it once. */
  lemma OverrideIdempotent(f: Fields, env: Env, parseFloat: string -> Option<real>)
    ensures Overridden(Overridden(f, env, parseFloat), env, parseFloat) == Overridden(f, env, parseFloat)
  {
  }
}
