/**
 * The constructor's options and the defaults it applies. Every option is
 * read with `options.x || default`, except `type`, taken as given, and
 * `max_connect_retries`, taken only when it is a number.
 */
module Settings {
  import opened JsValues

  /** The options object; an option that was not given is Undefined. */
  datatype Options = Options(
    level: Value, server: Value, host: Value, port: Value, appName: Value,
    pid: Value, tags: Value, wireType: Value,
    sslEnable: Value, sslKey: Value, sslCert: Value, ca: Value, sslPassphrase: Value,
    cbufferSize: Value, maxConnectRetries: Value, retryInterval: Value)

  /** `createStream()` with no options. */
  const NoOptions: Options := Options(
    Undefined, Undefined, Undefined, Undefined, Undefined,
    Undefined, Undefined, Undefined,
    Undefined, Undefined, Undefined, Undefined, Undefined,
    Undefined, Undefined, Undefined)

  /** What the constructor reads from the process: os.hostname(), process.title, process.pid. */
  datatype Environment = Environment(hostname: string, title: string, pid: int)

  /**
   * The stream's settings after the defaults. `server` and `application` are
   * kept as the text the `source` template literal prints for them.
   */
  datatype Config = Config(
    level: Value, server: string, host: Value, port: Value, application: string,
    pid: Value, tags: Value, wireType: Value,
    sslEnable: Value, sslKey: Value, sslCert: Value, ca: Value, sslPassphrase: Value,
    capacity: nat, maxConnectRetries: int, retryInterval: Value)

  /**
   * The options this model covers: a buffer size that is falsy or a positive
   * number, and a server and application name whose text does not depend on
   * the time zone.
   */
  predicate Supported(o: Options, env: Environment) {
    && (!Truthy(o.cbufferSize) || (o.cbufferSize.Num? && o.cbufferSize.n > 0))
    && Text(Or(o.server, Str(env.hostname))).Some?
    && Text(Or(o.appName, Str(env.title))).Some?
  }

  /** The settings the constructor derives from its options. */
  function Configure(o: Options, env: Environment): (c: Config)
    requires Supported(o, env)
    ensures c.capacity > 0
    ensures c.level == (if Truthy(o.level) then o.level else Str("info"))
    ensures c.server == Text(if Truthy(o.server) then o.server else Str(env.hostname)).value
    ensures c.application == Text(if Truthy(o.appName) then o.appName else Str(env.title)).value
    ensures c.host == (if Truthy(o.host) then o.host else Str("127.0.0.1"))
    ensures c.port == (if Truthy(o.port) then o.port else Num(9999))
    ensures c.sslEnable == (if Truthy(o.sslEnable) then o.sslEnable else Bool(false))
    ensures c.retryInterval == (if Truthy(o.retryInterval) then o.retryInterval else Num(100))
    ensures c.capacity == if Truthy(o.cbufferSize) then o.cbufferSize.n else 10
    ensures c.maxConnectRetries == if o.maxConnectRetries.Num? then o.maxConnectRetries.n else 4
    ensures c.pid == (if Truthy(o.pid) then o.pid else Num(env.pid))
    ensures c.tags == (if Truthy(o.tags) then o.tags else Arr([Str("bunyan")]))
    ensures c.wireType == o.wireType
  {
    Config(
      Or(o.level, Str("info")),
      Text(Or(o.server, Str(env.hostname))).value,
      Or(o.host, Str("127.0.0.1")),
      Or(o.port, Num(9999)),
      Text(Or(o.appName, Str(env.title))).value,
      Or(o.pid, Num(env.pid)),
      Or(o.tags, Arr([Str("bunyan")])),
      o.wireType,
      Or(o.sslEnable, Bool(false)),
      Or(o.sslKey, Str("")),
      Or(o.sslCert, Str("")),
      Or(o.ca, Str("")),
      Or(o.sslPassphrase, Str("")),
      if Truthy(o.cbufferSize) then o.cbufferSize.n else 10,
      if o.maxConnectRetries.Num? then o.maxConnectRetries.n else 4,
      Or(o.retryInterval, Num(100)))
  }

  /** With no options every setting takes its documented default. */
  lemma Defaults(env: Environment)
    ensures Supported(NoOptions, env)
    ensures Configure(NoOptions, env) == Config(
      Str("info"), env.hostname, Str("127.0.0.1"), Num(9999), env.title,
      Num(env.pid), Arr([Str("bunyan")]), Undefined,
      Bool(false), Str(""), Str(""), Str(""), Str(""),
      10, 4, Num(100))
  {
  }

  /**
   * The retry budget is the option when it is a number, of any sign, and 4
   * for anything else, a numeric string included.
   */
  lemma RetryBudgetOption(o: Options, env: Environment, n: int, s: string)
    requires Supported(o, env)
    ensures Configure(o.(maxConnectRetries := Num(n)), env).maxConnectRetries == n
    ensures Configure(o.(maxConnectRetries := Str(s)), env).maxConnectRetries == 4
  {
  }
}
