/** Configuration (chatbot-backend/src/config/index.ts): values read from the
    environment with fallbacks, and the start-up check that production
    settings are not left at their development defaults. */
module Config {
  import opened Common
  import opened Errors

  /** `process.env`: the variables that are set. */
  type Env = map<string, string>

  // ---- parseInt(value, 10) ---------------------------------------------

  /** ECMAScript's white space and line terminators: tab, vertical tab,
      form feed, the byte-order mark, line feed, carriage return, the line
      and paragraph separators, and the space separators (category Zs). */
  function IsSpace(c: char): (b: bool)
    ensures '0' <= c <= '9' || c == '-' || c == '+' ==> !b
    ensures c == ' ' || c == '\U{A0}' || c == '\U{FEFF}' || c == '\n' ==> b
  {
    || c == '\t' || c == '\U{B}' || c == '\U{C}' || c == '\U{FEFF}'
    || c == '\n' || c == '\r' || c == '\U{2028}' || c == '\U{2029}'
    || c == ' ' || c == '\U{A0}' || c == '\U{1680}' || '\U{2000}' <= c <= '\U{200A}'
    || c == '\U{202F}' || c == '\U{205F}' || c == '\U{3000}'
  }

  predicate IsDigit(c: char) {
    '0' <= c <= '9'
  }


  predicate AllDigits(s: string) {
    forall i :: 0 <= i < |s| ==> IsDigit(s[i])
  }

  /** The input without its leading white space. */
  function TrimStart(s: string): (r: string)
    ensures |r| <= |s| && r == s[|s| - |r|..]
    ensures |r| > 0 ==> !IsSpace(r[0])
    ensures |s| > 0 && !IsSpace(s[0]) ==> r == s
  {
    if |s| > 0 && IsSpace(s[0]) then TrimStart(s[1..]) else s
  }

  /** The longest prefix of decimal digits. */
  function DigitPrefix(s: string): (d: string)
    ensures |d| <= |s| && d == s[..|d|]
    ensures AllDigits(d)
    ensures |d| < |s| ==> !IsDigit(s[|d|])
  {
    if |s| > 0 && IsDigit(s[0]) then [s[0]] + DigitPrefix(s[1..]) else ""
  }

  /** The value of a decimal numeral, most significant digit first. */
  function DigitsValue(d: string): nat
    requires AllDigits(d)
  {
    if |d| == 0 then 0 else DigitsValue(d[..|d| - 1]) * 10 + (d[|d| - 1] as int - '0' as int)
  }

  /** The text after an optional leading sign. */
  function Unsigned(t: string): (u: string)
    ensures |t| > 0 && (t[0] == '-' || t[0] == '+') ==> u == t[1..]
    ensures !(|t| > 0 && (t[0] == '-' || t[0] == '+')) ==> u == t
  {
    if |t| > 0 && (t[0] == '-' || t[0] == '+') then t[1..] else t
  }

  /** `parseInt(s, 10)` on integers: leading white space, an optional sign,
      then as many digits as follow; None stands for NaN (no digit). */
  function ParseInt(s: string): (r: Option<int>)
    ensures r.None? <==> |Unsigned(TrimStart(s))| == 0 || !IsDigit(Unsigned(TrimStart(s))[0])
  {
    ReadSigned(TrimStart(s))
  }

  /** What `parseInt` reads once the white space is gone: an optional sign
      and the digits after it. */
  function ReadSigned(t: string): (r: Option<int>)
    ensures r.None? <==> |Unsigned(t)| == 0 || !IsDigit(Unsigned(t)[0])
  {
    var d := DigitPrefix(Unsigned(t));
    if |d| == 0 then None
    else if t[0] == '-' then Some(-(DigitsValue(d) as int))
    else Some(DigitsValue(d) as int)
  }

  lemma {:induction false} DigitsOfNumeral(n: nat)
    ensures AllDigits(NatToString(n))
    ensures DigitsValue(NatToString(n)) == n
  {
    var s := NatToString(n);
    if n >= 10 {
      DigitsOfNumeral(n / 10);
      assert s == NatToString(n / 10) + [DigitChar(n % 10)];
      assert s[..|s| - 1] == NatToString(n / 10);
    } else {
      assert s[..|s| - 1] == [];
    }
  }

  lemma {:induction false} DigitPrefixOfNumeral(d: string, suffix: string)
    requires AllDigits(d)
    requires |suffix| == 0 || !IsDigit(suffix[0])
    ensures DigitPrefix(d + suffix) == d
  {
    if |d| > 0 {
      assert (d + suffix)[1..] == d[1..] + suffix;
      DigitPrefixOfNumeral(d[1..], suffix);
    } else {
      assert d + suffix == suffix;
    }
  }

  /** Text that starts with a digit has neither white space nor a sign to skip. */
  lemma NumeralNeedsNoTrim(s: string)
    requires |s| > 0 && IsDigit(s[0])
    ensures TrimStart(s) == s && Unsigned(s) == s
  {
    assert !IsSpace(s[0]);
  }

  lemma ParseUnsigned(d: string, suffix: string)
    requires |d| > 0 && AllDigits(d)
    requires |suffix| == 0 || !IsDigit(suffix[0])
    ensures ParseInt(d + suffix) == Some(DigitsValue(d))
  {
    var s := d + suffix;
    assert IsDigit(s[0]) by { assert s[0] == d[0]; }
    NumeralNeedsNoTrim(s);
    DigitPrefixOfNumeral(d, suffix);
    ParseParts(s, d);
  }

  /** How `ParseInt` reads text that needs no trimming and whose digits are known. */
  lemma ParseParts(s: string, d: string)
    requires |s| > 0 && TrimStart(s) == s
    requires |d| > 0 && DigitPrefix(Unsigned(s)) == d
    ensures s[0] == '-' ==> ParseInt(s) == Some(-(DigitsValue(d) as int))
    ensures s[0] != '-' ==> ParseInt(s) == Some(DigitsValue(d) as int)
  {
  }

  lemma ParseNegative(d: string, suffix: string)
    requires |d| > 0 && AllDigits(d)
    requires |suffix| == 0 || !IsDigit(suffix[0])
    ensures ParseInt("-" + (d + suffix)) == Some(-(DigitsValue(d) as int))
  {
    var s := "-" + (d + suffix);
    assert TrimStart(s) == s by { assert s[0] == '-'; }
    assert Unsigned(s) == d + suffix by { assert s[0] == '-' && s[1..] == d + suffix; }
    assert DigitPrefix(d + suffix) == d by { DigitPrefixOfNumeral(d, suffix); }
    ParseParts(s, d);
  }

  /** `parseInt` reads back what `String(n)` writes, also when other text
      that does not start with a digit follows (so "8080abc" reads as 8080). */
  lemma ParseIntReadsNumeral(n: int, suffix: string)
    requires |suffix| == 0 || !IsDigit(suffix[0])
    ensures ParseInt(IntToString(n) + suffix) == Some(n)
  {
    if n < 0 {
      ReadsNegativeNumeral(n, suffix);
    } else {
      ReadsNaturalNumeral(n, suffix);
    }
  }

  lemma ReadsNegativeNumeral(n: int, suffix: string)
    requires n < 0
    requires |suffix| == 0 || !IsDigit(suffix[0])
    ensures ParseInt(IntToString(n) + suffix) == Some(n)
  {
    var d := NatToString(-n);
    assert AllDigits(d) && DigitsValue(d) == -n by { DigitsOfNumeral(-n); }
    var text := IntToString(n) + suffix;
    assert text == "-" + (d + suffix) by { assert IntToString(n) == "-" + d; }
    ParseNegative(d, suffix);
  }

  lemma ReadsNaturalNumeral(n: nat, suffix: string)
    requires |suffix| == 0 || !IsDigit(suffix[0])
    ensures ParseInt(IntToString(n) + suffix) == Some(n)
  {
    var d := NatToString(n);
    DigitsOfNumeral(n);
    ParseUnsigned(d, suffix);
  }

  // ---- Environment readers ---------------------------------------------

  /** `process.env[key]` is set to a non-empty value. */
  predicate Present(env: Env, key: string) {
    key in env && env[key] != ""
  }

  /** `process.env[key] || fallback`. */
  function EnvOr(env: Env, key: string, fallback: string): (v: string)
    ensures Present(env, key) ==> v == env[key]
    ensures !Present(env, key) ==> v == fallback
  {
    if Present(env, key) then env[key] else fallback
  }

  /** `process.env[key]`, possibly empty. */
  function EnvGet(env: Env, key: string): (v: Option<string>)
    ensures v.Some? <==> key in env
    ensures v.Some? ==> v.value == env[key]
    ensures v.Some? && v.value != "" <==> Present(env, key)
  {
    if key in env then Some(env[key]) else None
  }

  /** `getEnvAsInt(key, fallback)`. */
  function GetEnvAsInt(env: Env, key: string, fallback: int): (v: int)
    ensures !Present(env, key) ==> v == fallback
    ensures Present(env, key) && ParseInt(env[key]).None? ==> v == fallback
    ensures Present(env, key) && ParseInt(env[key]).Some? ==> v == ParseInt(env[key]).value
  {
    if !Present(env, key) then fallback
    else
      var parsed := ParseInt(env[key]);
      if parsed.None? then fallback else parsed.value
  }

  /** A variable set to a numeral is read as that number. */
  lemma GetEnvAsIntReadsNumeral(env: Env, key: string, n: int, fallback: int)
    ensures GetEnvAsInt(env[key := IntToString(n)], key, fallback) == n
  {
    var text := IntToString(n);
    assert ParseInt(text) == Some(n) by {
      ParseIntReadsNumeral(n, "");
      assert text + "" == text;
    }
    var updated := env[key := text];
    assert Present(updated, key) && updated[key] == text;
  }

  /** Leading white space is dropped whole. */
  lemma {:induction false} TrimStartSkips(spaces: string, s: string)
    requires forall i :: 0 <= i < |spaces| ==> IsSpace(spaces[i])
    ensures TrimStart(spaces + s) == TrimStart(s)
    decreases |spaces|
  {
    if |spaces| > 0 {
      assert (spaces + s)[0] == spaces[0];
      assert (spaces + s)[1..] == spaces[1..] + s;
      TrimStartSkips(spaces[1..], s);
    } else {
      assert spaces + s == s;
    }
  }

  /** Leading white space does not change what `parseInt` reads. */
  lemma ParseIntSkipsSpaces(spaces: string, s: string)
    requires forall i :: 0 <= i < |spaces| ==> IsSpace(spaces[i])
    ensures ParseInt(spaces + s) == ParseInt(s)
  {
    TrimStartSkips(spaces, s);
    ParseIntReadsTrimmed(spaces + s, s);
  }

  /** `parseInt` looks only at the text after its leading white space. */
  lemma ParseIntReadsTrimmed(a: string, b: string)
    requires TrimStart(a) == TrimStart(b)
    ensures ParseInt(a) == ParseInt(b)
  {
  }

  /** A port written after a no-break space is still read. */
  lemma NoBreakSpaceBeforeNumber(env: Env, key: string, n: int, fallback: int)
    ensures GetEnvAsInt(env[key := "\U{A0}" + IntToString(n)], key, fallback) == n
  {
    var text := "\U{A0}" + IntToString(n);
    assert ParseInt(text) == Some(n) by {
      ParseIntSkipsSpaces("\U{A0}", IntToString(n));
      ParseIntReadsNumeral(n, "");
      assert IntToString(n) + "" == IntToString(n);
    }
    var updated := env[key := text];
    assert Present(updated, key) && updated[key] == text;
  }

  /** `getEnvAsBool(key, fallback)`: any set value other than a spelling of
      "true" reads as false. */
  function GetEnvAsBool(env: Env, key: string, fallback: bool): (v: bool)
    ensures !Present(env, key) ==> v == fallback
    ensures Present(env, key) ==> (v <==> ToLower(env[key]) == "true")
  {
    if !Present(env, key) then fallback else ToLower(env[key]) == "true"
  }

  lemma GetEnvAsBoolSpellings(env: Env, key: string, fallback: bool)
    ensures GetEnvAsBool(env[key := "TRUE"], key, fallback)
    ensures GetEnvAsBool(env[key := "True"], key, fallback)
    ensures !GetEnvAsBool(env[key := "1"], key, fallback)
    ensures !GetEnvAsBool(env[key := "yes"], key, fallback)
  {
    assert ToLower("TRUE") == "true";
    assert ToLower("True") == "true";
    assert ToLower("1") == "1";
    assert ToLower("yes")[0] == 'y';
  }

  // ---- The configuration -----------------------------------------------

  const DevSecret: string := "dev-secret-change-in-production"

  datatype AppConfig = AppConfig(
    nodeEnv: string,
    port: int,
    host: string,
    projectId: string,
    location: string,
    model: string,
    maxOutputTokens: int,
    topK: int,
    connectionString: string,
    poolMin: int,
    poolMax: int,
    ssl: bool,
    jwtSecret: string,
    apiKey: Option<string>,
    windowMs: int,
    maxRequests: int,
    logLevel: string,
    expiryHours: int,
    maxContextMessages: int,
    emailService: Option<string>,
    emailHost: Option<string>,
    emailPort: int,
    emailUser: string,
    emailPass: string,
    notificationEmail: string)

  /** The `config` object built from the environment. */
  function Load(env: Env): (c: AppConfig)
    ensures c.port == GetEnvAsInt(env, "PORT", 8080)
    ensures c.poolMin == GetEnvAsInt(env, "DATABASE_POOL_MIN", 2)
    ensures c.poolMax == GetEnvAsInt(env, "DATABASE_POOL_MAX", 10)
    ensures c.expiryHours == GetEnvAsInt(env, "SESSION_EXPIRY_HOURS", 24)
    ensures c.maxContextMessages == GetEnvAsInt(env, "MAX_CONTEXT_MESSAGES", 10)
    ensures c.jwtSecret == EnvOr(env, "JWT_SECRET", DevSecret)
    ensures c.nodeEnv == EnvOr(env, "NODE_ENV", "development")
    ensures c.apiKey == EnvGet(env, "API_KEY")
    ensures c.host == EnvOr(env, "HOST", "0.0.0.0")
    ensures c.projectId == EnvOr(env, "GOOGLE_CLOUD_PROJECT", "")
    ensures c.location == EnvOr(env, "VERTEX_AI_LOCATION", "us-central1")
    ensures c.model == EnvOr(env, "GEMINI_MODEL", "gemini-1.5-pro")
    ensures c.maxOutputTokens == GetEnvAsInt(env, "GEMINI_MAX_OUTPUT_TOKENS", 2048)
    ensures c.topK == GetEnvAsInt(env, "GEMINI_TOP_K", 40)
    ensures c.connectionString == EnvOr(env, "DATABASE_URL", "")
    ensures c.ssl == GetEnvAsBool(env, "DATABASE_SSL", false)
    ensures c.windowMs == GetEnvAsInt(env, "RATE_LIMIT_WINDOW_MS", 60000)
    ensures c.maxRequests == GetEnvAsInt(env, "RATE_LIMIT_MAX_REQUESTS", 100)
    ensures c.logLevel == EnvOr(env, "LOG_LEVEL", "info")
    ensures c.emailService == EnvGet(env, "EMAIL_SERVICE") && c.emailHost == EnvGet(env, "EMAIL_HOST")
    ensures c.emailPort == GetEnvAsInt(env, "EMAIL_PORT", 587)
    ensures c.emailUser == EnvOr(env, "EMAIL_USER", "") && c.emailPass == EnvOr(env, "EMAIL_PASS", "")
    ensures c.notificationEmail == EnvOr(env, "LEAD_NOTIFICATION_EMAIL", EnvOr(env, "EMAIL_USER", "hello@themaplin.com"))
  {
    AppConfig(
      EnvOr(env, "NODE_ENV", "development"),
      GetEnvAsInt(env, "PORT", 8080),
      EnvOr(env, "HOST", "0.0.0.0"),
      EnvOr(env, "GOOGLE_CLOUD_PROJECT", ""),
      EnvOr(env, "VERTEX_AI_LOCATION", "us-central1"),
      EnvOr(env, "GEMINI_MODEL", "gemini-1.5-pro"),
      GetEnvAsInt(env, "GEMINI_MAX_OUTPUT_TOKENS", 2048),
      GetEnvAsInt(env, "GEMINI_TOP_K", 40),
      EnvOr(env, "DATABASE_URL", ""),
      GetEnvAsInt(env, "DATABASE_POOL_MIN", 2),
      GetEnvAsInt(env, "DATABASE_POOL_MAX", 10),
      GetEnvAsBool(env, "DATABASE_SSL", false),
      EnvOr(env, "JWT_SECRET", DevSecret),
      EnvGet(env, "API_KEY"),
      GetEnvAsInt(env, "RATE_LIMIT_WINDOW_MS", 60000),
      GetEnvAsInt(env, "RATE_LIMIT_MAX_REQUESTS", 100),
      EnvOr(env, "LOG_LEVEL", "info"),
      GetEnvAsInt(env, "SESSION_EXPIRY_HOURS", 24),
      GetEnvAsInt(env, "MAX_CONTEXT_MESSAGES", 10),
      EnvGet(env, "EMAIL_SERVICE"),
      EnvGet(env, "EMAIL_HOST"),
      GetEnvAsInt(env, "EMAIL_PORT", 587),
      EnvOr(env, "EMAIL_USER", ""),
      EnvOr(env, "EMAIL_PASS", ""),
      EnvOr(env, "LEAD_NOTIFICATION_EMAIL", EnvOr(env, "EMAIL_USER", "hello@themaplin.com")))
  }

  /** With nothing set, every setting takes its documented default. */
  lemma Defaults()
    ensures var c := Load(map[]);
      && c.nodeEnv == "development" && c.port == 8080 && c.host == "0.0.0.0"
      && c.poolMin == 2 && c.poolMax == 10 && !c.ssl
      && c.expiryHours == 24 && c.maxContextMessages == 10
      && c.jwtSecret == DevSecret && c.apiKey.None?
      && c.windowMs == 60000 && c.maxRequests == 100
      && c.emailPort == 587 && c.notificationEmail == "hello@themaplin.com"
  {
  }

  const MissingProject: string := "GOOGLE_CLOUD_PROJECT is required in production"
  const MissingDatabase: string := "DATABASE_URL is required in production"
  const DefaultSecret: string := "JWT_SECRET must be changed in production"

  /** The problems `validateConfig` collects, in the order it checks them. */
  function Problems(c: AppConfig): (p: seq<string>)
    ensures |p| <= 3
    ensures c.nodeEnv != "production" ==> p == []
    ensures MissingProject in p <==> c.nodeEnv == "production" && c.projectId == ""
    ensures MissingDatabase in p <==> c.nodeEnv == "production" && c.connectionString == ""
    ensures DefaultSecret in p <==> c.nodeEnv == "production" && c.jwtSecret == DevSecret
  {
    if c.nodeEnv != "production" then []
    else
      (if c.projectId == "" then [MissingProject] else [])
        + (if c.connectionString == "" then [MissingDatabase] else [])
        + (if c.jwtSecret == DevSecret then [DefaultSecret] else [])
  }

  const FailurePrefix: string := "Configuration validation failed:\n"

  /** `validateConfig()`: collects the problems one check at a time, then
      throws an Error listing them, one per line, if there is any. */
  method ValidateConfig(c: AppConfig) returns (thrown: Option<Thrown>)
    ensures thrown.None? <==> Problems(c) == []
    ensures thrown.Some? ==> thrown.value == PlainError(FailurePrefix + Join(Problems(c), "\n"))
  {
    var errors: seq<string> := [];
    if c.nodeEnv == "production" {
      if c.projectId == "" {
        errors := errors + [MissingProject];
      }
      if c.connectionString == "" {
        errors := errors + [MissingDatabase];
      }
      if c.jwtSecret == DevSecret {
        errors := errors + [DefaultSecret];
      }
    }
    assert errors == Problems(c);
    if |errors| > 0 {
      return Some(PlainError(FailurePrefix + Join(errors, "\n")));
    }
    return None;
  }

  /** Outside production the check never fails; a production environment
      with none of the three variables set fails on all three, in order. */
  lemma ProductionNeedsAllThree(env: Env)
    requires EnvOr(env, "NODE_ENV", "development") == "production"
    requires !Present(env, "GOOGLE_CLOUD_PROJECT") && !Present(env, "DATABASE_URL") && !Present(env, "JWT_SECRET")
    ensures Problems(Load(env)) == [MissingProject, MissingDatabase, DefaultSecret]
  {
  }
}
