/**
  The options pattern on its own: a configuration record with defaults,
  option closures that set fields (last write wins) or append to the
  interceptor list (accumulates), the warning `NewServer` gives for an
  inconsistent result, and how secrets are masked for display.
 */
module OptionsDemo {
  import opened Rpc

  /** `time.Hour`; durations are `time.Duration`, an integer count of nanoseconds. */
  const Hour: int := 3_600_000_000_000
  const DefaultAccessTTL: int := 24 * Hour
  const DefaultRefreshTTL: int := 7 * 24 * Hour
  const DefaultLogLevel: string := "info"

  datatype RedisConfig = RedisConfig(address: string, password: string, db: int)

  /** The fields of a ServerConfig, as one value; `redis` is the pointer
      `redisConfig`, None while it is nil. */
  datatype Config = Config(
    jwtSecret: string,
    accessTTL: int,
    refreshTTL: int,
    enableLogging: bool,
    logLevel: string,
    interceptors: seq<string>,
    redis: Option<RedisConfig>)

  /** The options (the source's `Option` closures). */
  datatype ConfigOption =
    | WithJWTAuth(secret: string)
    | WithJWTAuthAdvanced(secret: string, accessTTL: int, refreshTTL: int)
    | WithLogging(level: string)
    | WithInterceptors(names: seq<string>)
    | WithRedis(address: string, password: string, db: int)

  /** The default configuration `NewServer` starts from. */
  function Defaults(): Config
  {
    Config("", DefaultAccessTTL, DefaultRefreshTTL, false, DefaultLogLevel, [], None)
  }

  /** What one option does to the configuration. */
  function ApplyOption(cfg: Config, opt: ConfigOption): Config
  {
    match opt
    case WithJWTAuth(secret) =>
      cfg.(jwtSecret := secret, accessTTL := DefaultAccessTTL, refreshTTL := DefaultRefreshTTL)
    case WithJWTAuthAdvanced(secret, access, refresh) =>
      cfg.(jwtSecret := secret, accessTTL := access, refreshTTL := refresh)
    case WithLogging(level) =>
      cfg.(enableLogging := true, logLevel := level)
    case WithInterceptors(names) =>
      cfg.(interceptors := cfg.interceptors + names)
    case WithRedis(address, password, db) =>
      cfg.(redis := Some(RedisConfig(address, password, db)))
  }

  /** The defaults with the options applied one after another, first to last. */
  function Build(opts: seq<ConfigOption>): Config
  {
    if |opts| == 0 then Defaults() else ApplyOption(Build(opts[..|opts| - 1]), opts[|opts| - 1])
  }

  // ---------------------------------------------------------------------
  // Each field read off the option list from its head.

  /** The last WithJWTAuth or WithJWTAuthAdvanced, if any. */
  function LastJwtOption(opts: seq<ConfigOption>): (o: Option<ConfigOption>)
    ensures o.Some? ==> o.value.WithJWTAuth? || o.value.WithJWTAuthAdvanced?
  {
    if opts == [] then None
    else match LastJwtOption(opts[1..])
      case Some(o) => Some(o)
      case None => if opts[0].WithJWTAuth? || opts[0].WithJWTAuthAdvanced? then Some(opts[0]) else None
  }

  /** The level of the last WithLogging, if any. */
  function LastLogLevel(opts: seq<ConfigOption>): Option<string>
  {
    if opts == [] then None
    else match LastLogLevel(opts[1..])
      case Some(l) => Some(l)
      case None => if opts[0].WithLogging? then Some(opts[0].level) else None
  }

  /** The Redis settings of the last WithRedis, if any. */
  function LastRedis(opts: seq<ConfigOption>): Option<RedisConfig>
  {
    if opts == [] then None
    else match LastRedis(opts[1..])
      case Some(r) => Some(r)
      case None => if opts[0].WithRedis? then Some(RedisConfig(opts[0].address, opts[0].password, opts[0].db)) else None
  }

  /** Every interceptor name the options list, in option order. */
  function AllInterceptors(opts: seq<ConfigOption>): seq<string>
  {
    if opts == [] then [] else (if opts[0].WithInterceptors? then opts[0].names else []) + AllInterceptors(opts[1..])
  }

  /** The secret and TTLs a JWT option leaves behind; with none, the defaults. */
  function JwtSettings(o: Option<ConfigOption>): (string, int, int)
  {
    match o
    case Some(WithJWTAuth(secret)) => (secret, DefaultAccessTTL, DefaultRefreshTTL)
    case Some(WithJWTAuthAdvanced(secret, access, refresh)) => (secret, access, refresh)
    case _ => ("", DefaultAccessTTL, DefaultRefreshTTL)
  }

  lemma {:induction false} LastJwtOptionSnoc(opts: seq<ConfigOption>, o: ConfigOption)
    ensures LastJwtOption(opts + [o]) == if o.WithJWTAuth? || o.WithJWTAuthAdvanced? then Some(o) else LastJwtOption(opts)
  {
    if opts != [] {
      assert (opts + [o])[1..] == opts[1..] + [o];
      LastJwtOptionSnoc(opts[1..], o);
    }
  }

  lemma {:induction false} LastLogLevelSnoc(opts: seq<ConfigOption>, o: ConfigOption)
    ensures LastLogLevel(opts + [o]) == if o.WithLogging? then Some(o.level) else LastLogLevel(opts)
  {
    if opts != [] {
      assert (opts + [o])[1..] == opts[1..] + [o];
      LastLogLevelSnoc(opts[1..], o);
    }
  }

  lemma {:induction false} LastRedisSnoc(opts: seq<ConfigOption>, o: ConfigOption)
    ensures LastRedis(opts + [o]) == if o.WithRedis? then Some(RedisConfig(o.address, o.password, o.db)) else LastRedis(opts)
  {
    if opts != [] {
      assert (opts + [o])[1..] == opts[1..] + [o];
      LastRedisSnoc(opts[1..], o);
    }
  }

  lemma {:induction false} AllInterceptorsSnoc(opts: seq<ConfigOption>, o: ConfigOption)
    ensures AllInterceptors(opts + [o]) == AllInterceptors(opts) + (if o.WithInterceptors? then o.names else [])
  {
    if opts != [] {
      assert (opts + [o])[1..] == opts[1..] + [o];
      AllInterceptorsSnoc(opts[1..], o);
    }
  }

  /** Every field of the built configuration:
      - the secret and both TTLs come from the last JWT option -- WithJWTAuth
        resets the TTLs to 24h and 168h, WithJWTAuthAdvanced sets the given
        ones -- and are "", 24h and 168h when there is none;
      - logging is on exactly when some WithLogging ran, at the last level
        given, and otherwise off at "info";
      - the interceptor list is every listed name, in option order;
      - Redis is unset until a WithRedis, then holds the last one's settings.
      So each option touches only its own fields. */
  lemma {:induction false} BuildFields(opts: seq<ConfigOption>)
    ensures var cfg := Build(opts);
      && (cfg.jwtSecret, cfg.accessTTL, cfg.refreshTTL) == JwtSettings(LastJwtOption(opts))
      && cfg.enableLogging == LastLogLevel(opts).Some?
      && cfg.logLevel == (if LastLogLevel(opts).Some? then LastLogLevel(opts).value else DefaultLogLevel)
      && cfg.interceptors == AllInterceptors(opts)
      && cfg.redis == LastRedis(opts)
  {
    if opts != [] {
      var init, o := opts[..|opts| - 1], opts[|opts| - 1];
      assert opts == init + [o];
      BuildFields(init);
      LastJwtOptionSnoc(init, o);
      LastLogLevelSnoc(init, o);
      LastRedisSnoc(init, o);
      AllInterceptorsSnoc(init, o);
    }
  }

  /** Redis stays unset exactly when no option is a WithRedis. */
  lemma {:induction false} LastRedisNoneIffNoOption(opts: seq<ConfigOption>)
    ensures LastRedis(opts).None? <==> forall i :: 0 <= i < |opts| ==> !opts[i].WithRedis?
  {
    if opts != [] {
      LastRedisNoneIffNoOption(opts[1..]);
      assert forall i :: 1 <= i < |opts| ==> opts[i] == opts[1..][i - 1];
    }
  }

  /** WithLogging changes the two logging fields and nothing else. */
  lemma LoggingTouchesOnlyLogging(cfg: Config, level: string)
    ensures ApplyOption(cfg, WithLogging(level)).enableLogging
    ensures ApplyOption(cfg, WithLogging(level)).logLevel == level
    ensures ApplyOption(cfg, WithLogging(level)).(enableLogging := cfg.enableLogging, logLevel := cfg.logLevel) == cfg
  {
  }

  /** The mutable configuration the option closures work on. */
  class ServerConfig {
    var jwtSecret: string
    var accessTTL: int
    var refreshTTL: int
    var enableLogging: bool
    var logLevel: string
    var interceptors: seq<string>
    var redisConfig: Option<RedisConfig>

    function Snapshot(): Config
      reads this
    {
      Config(jwtSecret, accessTTL, refreshTTL, enableLogging, logLevel, interceptors, redisConfig)
    }

    /** The `defaultConfig` literal of `NewServer`. */
    constructor Default()
      ensures Snapshot() == Defaults()
    {
      jwtSecret := "";
      accessTTL := DefaultAccessTTL;
      refreshTTL := DefaultRefreshTTL;
      enableLogging := false;
      logLevel := DefaultLogLevel;
      interceptors := [];
      redisConfig := None;
    }

    /** Stores a copy of the given Redis settings; nothing else changes. */
    method SetRedis(rc: RedisConfig)
      modifies this
      ensures Snapshot() == old(Snapshot()).(redis := Some(rc))
      ensures GetRedis() == Some(rc)
    {
      redisConfig := Some(rc);
    }

    /** The Redis settings the configuration holds, None while none were set. */
    function GetRedis(): (r: Option<RedisConfig>)
      reads this
      ensures r == Snapshot().redis
    {
      redisConfig
    }

    /** Runs one option closure on this configuration. */
    method Apply(opt: ConfigOption)
      modifies this
      ensures Snapshot() == ApplyOption(old(Snapshot()), opt)
    {
      match opt
      case WithJWTAuth(secret) =>
        jwtSecret := secret;
        accessTTL := DefaultAccessTTL;
        refreshTTL := DefaultRefreshTTL;
      case WithJWTAuthAdvanced(secret, access, refresh) =>
        jwtSecret := secret;
        accessTTL := access;
        refreshTTL := refresh;
      case WithLogging(level) =>
        enableLogging := true;
        logLevel := level;
      case WithInterceptors(names) =>
        interceptors := interceptors + names;
      case WithRedis(address, password, db) =>
        SetRedis(RedisConfig(address, password, db));
    }
  }

  /** The server keeps a copy of the configuration it was built with. */
  datatype Server = Server(config: Config)

  /** `NewServer(options...)`: the defaults, every option in argument
      order, then the consistency warning. The configuration it returns
      has the fields BuildFields describes; with no options it is exactly
      the defaults, and there is no warning. */
  method NewServer(options: seq<ConfigOption>) returns (s: Server, warned: bool)
    ensures s.config == Build(options)
    ensures warned <==> s.config.jwtSecret == "" && |s.config.interceptors| > 0
    ensures options == [] ==> s.config == Config("", DefaultAccessTTL, DefaultRefreshTTL, false, DefaultLogLevel, [], None) && !warned
  {
    var config := new ServerConfig.Default();
    var i := 0;
    while i < |options|
      invariant 0 <= i <= |options|
      invariant config.Snapshot() == Build(options[..i])
    {
      config.Apply(options[i]);
      assert options[..i + 1][..i] == options[..i];
      i := i + 1;
    }
    assert options[..|options|] == options;
    warned := config.jwtSecret == "" && |config.interceptors| > 0;
    s := Server(config.Snapshot());
  }

  // ---------------------------------------------------------------------
  // Masking secrets for display. Go strings are byte strings: `len` counts
  // bytes and slicing cuts bytes, so the mask works on bytes.

  newtype byte = x: int | 0 <= x < 256

  /** "未设置" ("not set") in UTF-8. */
  const NotSet: seq<byte> := [0xE6, 0x9C, 0xAA, 0xE8, 0xAE, 0xBE, 0xE7, 0xBD, 0xAE]
  /** "****" */
  const Stars: seq<byte> := [0x2A, 0x2A, 0x2A, 0x2A]

  /** `maskSecret`: "未设置" for an empty secret, "****" for one of at most
      four bytes, and otherwise its first two bytes, "****" and its last two
      bytes -- always eight bytes. */
  function MaskSecret(secret: seq<byte>): (m: seq<byte>)
    ensures secret == [] ==> m == NotSet
    ensures 0 < |secret| <= 4 ==> m == Stars
    ensures |secret| > 4 ==> |m| == 8 && m[..2] == secret[..2] && m[2..6] == Stars && m[6..] == secret[|secret| - 2..]
  {
    if secret == [] then NotSet
    else if |secret| <= 4 then Stars
    else secret[..2] + Stars + secret[|secret| - 2..]
  }

  /** The mask never reveals the middle of a secret: secrets that share
      their first and last two bytes mask alike, and so do all short ones. */
  lemma MaskHidesMiddle(s: seq<byte>, t: seq<byte>)
    requires (0 < |s| <= 4 && 0 < |t| <= 4)
          || (|s| > 4 && |t| > 4 && s[..2] == t[..2] && s[|s| - 2..] == t[|t| - 2..])
    ensures MaskSecret(s) == MaskSecret(t)
  {
  }

  /** A non-empty secret is never shown as "not set", and no mask is longer
      than eight bytes save the "not set" marker. */
  lemma {:induction false} MaskShape(s: seq<byte>)
    ensures s != [] ==> MaskSecret(s) != NotSet && |MaskSecret(s)| <= 8
  {
    if s != [] {
      assert |NotSet| == 9;
    }
  }
}
