/** The tracer's configuration: the `Config` constructor of
    packages/dd-trace/src/config.js, which resolves every setting from the
    caller's options, the process environment and literal defaults. */
module TracerConfig {
  import opened Wrappers
  import opened JsValues
  import opened Koalas
  import opened Tagger

  /** The process environment, as `platform.env(name)` reads it. */
  type Env = map<string, string>

  /** `platform.env(name)`: the variable's text, or `undefined` when unset. */
  function EnvVar(env: Env, name: string): (r: Value)
    ensures name in env ==> r == Str(env[name])
    ensures name !in env ==> r == Undefined
  {
    if name in env then Str(env[name]) else Undefined
  }

  /** What the platform layer supplies: the environment and the answers of
      `platform.service()` and `platform.appVersion()`. */
  datatype Platform = Platform(env: Env, service: Value, appVersion: Value)

  /** A URL as the url-parse package returns it (the parser is not part of
      this model). */
  datatype ParsedUrl = ParsedUrl(hostname: string, port: string)

  datatype DogstatsdOptions = DogstatsdOptions(hostname: Value, port: Value)

  datatype ExperimentalOptions = ExperimentalOptions(
    b3: Value,
    runtimeId: Value,
    exporter: Value,
    distributedTracingOriginWhitelist: Value,
    sampler: Option<JsObject>)

  /** The caller's options object; a property the caller leaves out is
      `Undefined`, a group it leaves out is `None`. */
  datatype Options = Options(
    enabled: Value,
    profiling: Value,
    debug: Value,
    logInjection: Value,
    url: Value,
    site: Value,
    hostname: Value,
    port: Value,
    sampleRate: Value,
    flushInterval: Value,
    plugins: Value,
    dogstatsd: Option<DogstatsdOptions>,
    runtimeMetrics: Value,
    analytics: Value,
    reportHostname: Value,
    scope: Value,
    clientToken: Value,
    tags: TagInput,
    service: Value,
    version: Value,
    env: Value,
    experimental: Option<ExperimentalOptions>,
    logger: Value,
    trackAsyncScope: Value,
    logLevel: Value,
    lookup: Value)

  /** `{}` */
  const NoOptions := Options(
    Undefined, Undefined, Undefined, Undefined, Undefined, Undefined, Undefined, Undefined,
    Undefined, Undefined, Undefined, None, Undefined, Undefined, Undefined, Undefined,
    Undefined, NoTags, Undefined, Undefined, Undefined, None, Undefined, Undefined,
    Undefined, Undefined)

  /** The agent URL setting: the parsed URL, or the falsy value it was
      resolved to (`url && new URL(url)`). */
  datatype AgentUrl = Unset(falsy: Value) | Parsed(url: ParsedUrl)

  datatype Dogstatsd = Dogstatsd(hostname: string, port: string)

  datatype Experimental = Experimental(b3: bool, runtimeId: bool, exporter: Value, peers: Value, sampler: JsObject)

  datatype Profiling = Profiling(enabled: bool)

  /** The context-propagation scope: the no-op scope, or the one resolved
      from the options and the environment. */
  datatype Scope = Noop | Selected(scope: Value)

  // ------------------------------------------------------------ normalisation

  /** `String(v) === 'true'`, decided without writing out `String(v)`:
      only `true`, the text `true` and an array that joins to it qualify
      (see `IsTrueText`). */
  predicate IsTrue(v: Value) {
    v == Bool(true) || v == Str("true") || (v.Arr? && Join(v, 0) == "true")
  }

  /** `IsTrue` is exactly `String(v) === 'true'`: no number, `null`,
      `undefined`, `false` or object prints as `true`. */
  lemma IsTrueText(v: Value)
    ensures IsTrue(v) <==> ToStr(v) == "true"
  {
    match v
    case Number(n) =>
      if n.Finite? {
        var t := NumberText(n.r);
        assert t != "true" by { assert "true"[0] == 't'; }
      }
    case _ =>
  }

  /** A boolean setting resolved from one option and one environment variable:
      a present option decides, else a set variable, else the default; the
      winner counts as true exactly when its text is `true`. */
  function FlagSetting(option: Value, name: string, env: Env, default: bool): (r: bool)
    ensures HasValue(option) ==> (r <==> ToStr(option) == "true")
    ensures !HasValue(option) && name in env ==> (r <==> env[name] == "true")
    ensures !HasValue(option) && name !in env ==> r == default
  {
    IsTrue(Coalesce3(option, EnvVar(env, name), Bool(default)))
  }

  /** `analytics`: the option, else `DD_TRACE_ANALYTICS_ENABLED`, else
      `DD_TRACE_ANALYTICS`; false when none is given. */
  function Analytics(o: Options, env: Env): (r: bool)
    ensures HasValue(o.analytics) ==> (r <==> ToStr(o.analytics) == "true")
    ensures !HasValue(o.analytics) && "DD_TRACE_ANALYTICS_ENABLED" in env ==>
      (r <==> env["DD_TRACE_ANALYTICS_ENABLED"] == "true")
    ensures !HasValue(o.analytics) && "DD_TRACE_ANALYTICS_ENABLED" !in env && "DD_TRACE_ANALYTICS" in env ==>
      (r <==> env["DD_TRACE_ANALYTICS"] == "true")
    ensures !HasValue(o.analytics) && "DD_TRACE_ANALYTICS_ENABLED" !in env && "DD_TRACE_ANALYTICS" !in env ==> !r
  {
    IsTrue(Coalesce3(o.analytics, EnvVar(env, "DD_TRACE_ANALYTICS_ENABLED"), EnvVar(env, "DD_TRACE_ANALYTICS")))
  }

  /** `startupLogsEnabled`: on unless `DD_TRACE_STARTUP_LOGS` says otherwise. */
  function StartupLogsEnabled(env: Env): (r: bool)
    ensures r <==> "DD_TRACE_STARTUP_LOGS" !in env || env["DD_TRACE_STARTUP_LOGS"] == "true"
  {
    IsTrue(Coalesce2(EnvVar(env, "DD_TRACE_STARTUP_LOGS"), Bool(true)))
  }

  /** `plugins`: on unless the option holds a falsy value. */
  function Plugins(o: Options): (r: bool)
    ensures r <==> !HasValue(o.plugins) || Truthy(o.plugins)
  {
    Truthy(Coalesce2(o.plugins, Bool(true)))
  }

  /** `trackAsyncScope`: on unless the option is exactly `false`. */
  function TrackAsyncScope(o: Options): (r: bool)
    ensures r <==> o.trackAsyncScope != Bool(false)
  {
    !(o.trackAsyncScope.Bool? && !o.trackAsyncScope.b)
  }

  // ------------------------------------------------------------ numbers

  /** `sampleRate`: the option as a number clamped to [0, 1]; 1 when it does
      not convert to a number. */
  function SampleRate(o: Options): (r: Value)
    ensures r.Number? && r.n.Finite? && 0.0 <= r.n.r <= 1.0
    ensures ToNumber(o.sampleRate).NaN? ==> r.n.r == 1.0
    ensures ToNumber(o.sampleRate).Finite? && 0.0 <= ToNumber(o.sampleRate).r <= 1.0 ==>
      r.n.r == ToNumber(o.sampleRate).r
    ensures AtMost(ToNumber(o.sampleRate), Finite(0.0)) ==> r.n.r == 0.0
    ensures AtMost(Finite(1.0), ToNumber(o.sampleRate)) ==> r.n.r == 1.0
  {
    Coalesce2(Number(MathMin(MathMax(ToNumber(o.sampleRate), Finite(0.0)), Finite(1.0))), Number(Finite(1.0)))
  }

  /** `flushInterval`: the integer `parseInt` reads from the option, else 2000. */
  function FlushInterval(o: Options): (r: Value)
    ensures r.Number? && r.n.Finite? && r.n.r == r.n.r.Floor as real
    ensures ParseInt(o.flushInterval).Finite? ==> r.n == ParseInt(o.flushInterval)
    ensures ParseInt(o.flushInterval).NaN? ==> r.n.r == 2000.0
  {
    Coalesce2(Number(ParseInt(o.flushInterval)), Number(Finite(2000.0)))
  }

  // ------------------------------------------------------------ agent address

  /** The agent URL as given: the option, else `DD_TRACE_AGENT_URL`, else
      `DD_TRACE_URL`, else `null`. */
  function RawUrl(o: Options, env: Env): (r: Value)
    ensures HasValue(o.url) ==> r == o.url
    ensures !HasValue(o.url) && "DD_TRACE_AGENT_URL" in env ==> r == Str(env["DD_TRACE_AGENT_URL"])
    ensures !HasValue(o.url) && "DD_TRACE_AGENT_URL" !in env && "DD_TRACE_URL" in env ==> r == Str(env["DD_TRACE_URL"])
    ensures !HasValue(o.url) && "DD_TRACE_AGENT_URL" !in env && "DD_TRACE_URL" !in env ==> r == Null
  {
    Coalesce4(o.url, EnvVar(env, "DD_TRACE_AGENT_URL"), EnvVar(env, "DD_TRACE_URL"), Null)
  }

  /** `this.url`: parsed when the resolved URL is truthy. */
  function AgentUrlOf(raw: Value, parseUrl: Value -> ParsedUrl): (r: AgentUrl)
    ensures Truthy(raw) ==> r == Parsed(parseUrl(raw))
    ensures !Truthy(raw) ==> r == Unset(raw)
  {
    if Truthy(raw) then Parsed(parseUrl(raw)) else Unset(raw)
  }

  /** The agent host as given: the option, else `DD_AGENT_HOST`, else
      `DD_TRACE_AGENT_HOSTNAME`. */
  function GivenHostname(o: Options, env: Env): (r: Value)
    ensures HasValue(o.hostname) ==> r == o.hostname
    ensures !HasValue(o.hostname) && "DD_AGENT_HOST" in env ==> r == Str(env["DD_AGENT_HOST"])
    ensures !HasValue(o.hostname) && "DD_AGENT_HOST" !in env && "DD_TRACE_AGENT_HOSTNAME" in env ==>
      r == Str(env["DD_TRACE_AGENT_HOSTNAME"])
    ensures !HasValue(o.hostname) && "DD_AGENT_HOST" !in env && "DD_TRACE_AGENT_HOSTNAME" !in env ==> r == Undefined
  {
    Coalesce3(o.hostname, EnvVar(env, "DD_AGENT_HOST"), EnvVar(env, "DD_TRACE_AGENT_HOSTNAME"))
  }

  /** `this.hostname`: the given host when truthy, else the URL's host name,
      else the falsy URL value itself. */
  function Hostname(given: Value, url: AgentUrl): (r: Value)
    ensures Truthy(given) ==> r == given
    ensures !Truthy(given) && url.Parsed? ==> r == Str(url.url.hostname)
    ensures !Truthy(given) && url.Unset? ==> r == url.falsy
  {
    if Truthy(given) then given
    else match url
      case Parsed(u) => Str(u.hostname)
      case Unset(falsy) => falsy
  }

  /** The agent port as given: the option, else `DD_TRACE_AGENT_PORT`, else 8126. */
  function GivenPort(o: Options, env: Env): (r: Value)
    ensures HasValue(o.port) ==> r == o.port
    ensures !HasValue(o.port) && "DD_TRACE_AGENT_PORT" in env ==> r == Str(env["DD_TRACE_AGENT_PORT"])
    ensures !HasValue(o.port) && "DD_TRACE_AGENT_PORT" !in env ==> r == Number(Finite(8126.0))
  {
    Coalesce3(o.port, EnvVar(env, "DD_TRACE_AGENT_PORT"), Number(Finite(8126.0)))
  }

  /** `this.port`: the text of the given port when truthy, else of the URL's
      port, else of the falsy URL value. */
  function Port(given: Value, url: AgentUrl): (r: string)
    ensures Truthy(given) ==> r == ToStr(given)
    ensures !Truthy(given) && url.Parsed? ==> r == url.url.port
    ensures !Truthy(given) && url.Unset? ==> r == ToStr(url.falsy)
  {
    ToStr(if Truthy(given) then given else match url
      case Parsed(u) => Str(u.port)
      case Unset(falsy) => falsy)
  }

  /** `this.dogstatsd`: each field is the group's option, else its
      environment variable, else the agent host name (for the host) or 8125
      (for the port), written as text. */
  function DogstatsdOf(o: Options, env: Env, hostname: Value): (r: Dogstatsd)
    ensures
      var given := o.dogstatsd.GetOr(DogstatsdOptions(Undefined, Undefined));
      && (HasValue(given.hostname) ==> r.hostname == ToStr(given.hostname))
      && (!HasValue(given.hostname) && "DD_DOGSTATSD_HOSTNAME" in env ==> r.hostname == env["DD_DOGSTATSD_HOSTNAME"])
      && (!HasValue(given.hostname) && "DD_DOGSTATSD_HOSTNAME" !in env ==> r.hostname == ToStr(hostname))
      && (HasValue(given.port) ==> r.port == ToStr(given.port))
      && (!HasValue(given.port) && "DD_DOGSTATSD_PORT" in env ==> r.port == env["DD_DOGSTATSD_PORT"])
      && (!HasValue(given.port) && "DD_DOGSTATSD_PORT" !in env ==> r.port == ToStr(Number(Finite(8125.0))))
  {
    var given := o.dogstatsd.GetOr(DogstatsdOptions(Undefined, Undefined));
    Dogstatsd(
      ToStr(Coalesce3(given.hostname, EnvVar(env, "DD_DOGSTATSD_HOSTNAME"), hostname)),
      ToStr(Coalesce3(given.port, EnvVar(env, "DD_DOGSTATSD_PORT"), Number(Finite(8125.0)))))
  }

  // ------------------------------------------------------------ other settings

  /** `site`: the option, else `DD_SITE`, else `datadoghq.com`. */
  function Site(o: Options, env: Env): (r: Value)
    ensures HasValue(o.site) ==> r == o.site
    ensures !HasValue(o.site) && "DD_SITE" in env ==> r == Str(env["DD_SITE"])
    ensures !HasValue(o.site) && "DD_SITE" !in env ==> r == Str("datadoghq.com")
  {
    Coalesce3(o.site, EnvVar(env, "DD_SITE"), Str("datadoghq.com"))
  }

  /** The scope as given: the option, else `DD_TRACE_SCOPE`. */
  function GivenScope(o: Options, env: Env): (r: Value)
    ensures HasValue(o.scope) ==> r == o.scope
    ensures !HasValue(o.scope) && "DD_TRACE_SCOPE" in env ==> r == Str(env["DD_TRACE_SCOPE"])
    ensures !HasValue(o.scope) && "DD_TRACE_SCOPE" !in env ==> r == Undefined
  {
    Coalesce2(o.scope, EnvVar(env, "DD_TRACE_SCOPE"))
  }

  /** `this.scope`: the no-op scope exactly when `DD_CONTEXT_PROPAGATION` is
      the text `false`. */
  function ScopeOf(o: Options, env: Env): (r: Scope)
    ensures r.Noop? <==> EnvVar(env, "DD_CONTEXT_PROPAGATION") == Str("false")
    ensures r.Selected? ==> r.scope == GivenScope(o, env)
  {
    if EnvVar(env, "DD_CONTEXT_PROPAGATION") == Str("false") then Noop else Selected(GivenScope(o, env))
  }

  /** `clientToken`: the option, else `DD_CLIENT_TOKEN`. */
  function ClientToken(o: Options, env: Env): (r: Value)
    ensures HasValue(o.clientToken) ==> r == o.clientToken
    ensures !HasValue(o.clientToken) && "DD_CLIENT_TOKEN" in env ==> r == Str(env["DD_CLIENT_TOKEN"])
    ensures !HasValue(o.clientToken) && "DD_CLIENT_TOKEN" !in env ==> r == Undefined
  {
    Coalesce2(o.clientToken, EnvVar(env, "DD_CLIENT_TOKEN"))
  }

  /** `logLevel`: the option, else `DD_TRACE_LOG_LEVEL`, else `debug`. */
  function LogLevel(o: Options, env: Env): (r: Value)
    ensures HasValue(o.logLevel) ==> r == o.logLevel
    ensures !HasValue(o.logLevel) && "DD_TRACE_LOG_LEVEL" in env ==> r == Str(env["DD_TRACE_LOG_LEVEL"])
    ensures !HasValue(o.logLevel) && "DD_TRACE_LOG_LEVEL" !in env ==> r == Str("debug")
  {
    Coalesce3(o.logLevel, EnvVar(env, "DD_TRACE_LOG_LEVEL"), Str("debug"))
  }

  // ------------------------------------------------------------ tags and identity

  function EnvTags(env: Env, name: string): TagInput {
    if name in env then TagList(env[name]) else NoTags
  }

  /** The tags before the service identity is added: `DD_TAGS`, then
      `DD_TRACE_TAGS`, then `DD_TRACE_GLOBAL_TAGS`, then the option, each
      writing over the ones before. A tag's value comes from the last of
      the four sources that holds it. */
  function UserTags(o: Options, env: Env, parse: string -> map<string, Value>): (r: map<string, Value>)
    ensures var tags, trace, global, given := Pairs(EnvTags(env, "DD_TAGS"), parse),
      Pairs(EnvTags(env, "DD_TRACE_TAGS"), parse), Pairs(EnvTags(env, "DD_TRACE_GLOBAL_TAGS"), parse),
      Pairs(o.tags, parse);
      && r.Keys == tags.Keys + trace.Keys + global.Keys + given.Keys
      && (forall k :: k in given ==> r[k] == given[k])
      && (forall k :: k in global && k !in given ==> r[k] == global[k])
      && (forall k :: k in trace && k !in global && k !in given ==> r[k] == trace[k])
      && (forall k :: k in tags && k !in trace && k !in global && k !in given ==> r[k] == tags[k])
  {
    var t := Merge(map[], EnvTags(env, "DD_TAGS"), parse);
    var t := Merge(t, EnvTags(env, "DD_TRACE_TAGS"), parse);
    var t := Merge(t, EnvTags(env, "DD_TRACE_GLOBAL_TAGS"), parse);
    Merge(t, o.tags, parse)
  }

  /** `service`: the first truthy of the option, `DD_SERVICE`,
      `DD_SERVICE_NAME`, the `service` tag and the platform's answer; else
      `node`. Never falsy. */
  function Service(o: Options, env: Env, tags: map<string, Value>, platformService: Value): (r: Value)
    ensures Truthy(r)
    ensures Truthy(o.service) ==> r == o.service
    ensures !Truthy(o.service) && Truthy(EnvVar(env, "DD_SERVICE")) ==> r == EnvVar(env, "DD_SERVICE")
    ensures !Truthy(o.service) && !Truthy(EnvVar(env, "DD_SERVICE")) && Truthy(EnvVar(env, "DD_SERVICE_NAME")) ==>
      r == EnvVar(env, "DD_SERVICE_NAME")
    ensures (!Truthy(o.service) && !Truthy(EnvVar(env, "DD_SERVICE")) && !Truthy(EnvVar(env, "DD_SERVICE_NAME"))
      && Truthy(Property(tags, "service"))) ==> r == Property(tags, "service")
    ensures (!Truthy(o.service) && !Truthy(EnvVar(env, "DD_SERVICE")) && !Truthy(EnvVar(env, "DD_SERVICE_NAME"))
      && !Truthy(Property(tags, "service")) && Truthy(platformService)) ==> r == platformService
    ensures (!Truthy(o.service) && !Truthy(EnvVar(env, "DD_SERVICE")) && !Truthy(EnvVar(env, "DD_SERVICE_NAME"))
      && !Truthy(Property(tags, "service")) && !Truthy(platformService)) ==> r == Str("node")
  {
    Or(Or(Or(Or(Or(o.service, EnvVar(env, "DD_SERVICE")), EnvVar(env, "DD_SERVICE_NAME")), Property(tags, "service")),
      platformService), Str("node"))
  }

  /** `version`: the option, else `DD_VERSION`, else the `version` tag, else
      the platform's application version. */
  function Version(o: Options, env: Env, tags: map<string, Value>, appVersion: Value): (r: Value)
    ensures HasValue(o.version) ==> r == o.version
    ensures !HasValue(o.version) && "DD_VERSION" in env ==> r == Str(env["DD_VERSION"])
    ensures !HasValue(o.version) && "DD_VERSION" !in env && HasValue(Property(tags, "version")) ==>
      r == Property(tags, "version")
    ensures !HasValue(o.version) && "DD_VERSION" !in env && !HasValue(Property(tags, "version")) ==> r == appVersion
  {
    Coalesce4(o.version, EnvVar(env, "DD_VERSION"), Property(tags, "version"), appVersion)
  }

  /** `env`: the option, else `DD_ENV`, else the `env` tag. */
  function Environment(o: Options, env: Env, tags: map<string, Value>): (r: Value)
    ensures HasValue(o.env) ==> r == o.env
    ensures !HasValue(o.env) && "DD_ENV" in env ==> r == Str(env["DD_ENV"])
    ensures !HasValue(o.env) && "DD_ENV" !in env ==> r == Property(tags, "env")
  {
    Coalesce3(o.env, EnvVar(env, "DD_ENV"), Property(tags, "env"))
  }

  /** The pairs `{ service, env, version }` added to the tags. */
  function IdentityTags(service: Value, envName: Value, version: Value): map<string, Value> {
    map["service" := service, "env" := envName, "version" := version]
  }

  // ------------------------------------------------------------ experimental

  /** `experimental.b3`: the group is given and its `b3` is truthy. */
  function B3(o: Options): (r: bool)
    ensures r <==> o.experimental.Some? && Truthy(o.experimental.value.b3)
  {
    !(o.experimental.None? || !Truthy(o.experimental.value.b3))
  }

  /** `experimental.runtimeId`: the group is given and its `runtimeId` is truthy. */
  function RuntimeIdEnabled(o: Options): (r: bool)
    ensures r <==> o.experimental.Some? && Truthy(o.experimental.value.runtimeId)
  {
    !(o.experimental.None? || !Truthy(o.experimental.value.runtimeId))
  }

  /** `experimental.exporter`: the group's exporter, `undefined` without the group. */
  function Exporter(o: Options): (r: Value)
    ensures o.experimental.Some? ==> r == o.experimental.value.exporter
    ensures o.experimental.None? ==> r == Undefined
  {
    if o.experimental.Some? then o.experimental.value.exporter else Undefined
  }

  /** `experimental.peers`: the origin whitelist when given and truthy, else `[]`. */
  function Peers(o: Options): (r: Value)
    ensures Truthy(r)
    ensures o.experimental.Some? && Truthy(o.experimental.value.distributedTracingOriginWhitelist) ==>
      r == o.experimental.value.distributedTracingOriginWhitelist
    ensures !(o.experimental.Some? && Truthy(o.experimental.value.distributedTracingOriginWhitelist)) ==> r == Arr([])
  {
    if o.experimental.Some? && Truthy(o.experimental.value.distributedTracingOriginWhitelist)
    then o.experimental.value.distributedTracingOriginWhitelist
    else Arr([])
  }

  /** The caller's sampler object, when the options carry one. */
  function CallerSampler(o: Options): set<JsObject> {
    if o.experimental.Some? && o.experimental.value.sampler.Some? then {o.experimental.value.sampler.value} else {}
  }

  /** What `Object.assign` writes onto the sampler: its own `sampleRate` and
      `rateLimit` when they hold values, else `DD_TRACE_SAMPLE_RATE` and
      `DD_TRACE_RATE_LIMIT`. */
  function SamplerUpdate(props: map<string, Value>, env: Env): (r: map<string, Value>)
    ensures r.Keys == {"sampleRate", "rateLimit"}
    ensures HasValue(Property(props, "sampleRate")) ==> r["sampleRate"] == props["sampleRate"]
    ensures !HasValue(Property(props, "sampleRate")) ==> r["sampleRate"] == EnvVar(env, "DD_TRACE_SAMPLE_RATE")
    ensures HasValue(Property(props, "rateLimit")) ==> r["rateLimit"] == props["rateLimit"]
    ensures !HasValue(Property(props, "rateLimit")) ==> r["rateLimit"] == EnvVar(env, "DD_TRACE_RATE_LIMIT")
  {
    map[
      "sampleRate" := Coalesce2(Property(props, "sampleRate"), EnvVar(env, "DD_TRACE_SAMPLE_RATE")),
      "rateLimit" := Coalesce2(Property(props, "rateLimit"), EnvVar(env, "DD_TRACE_RATE_LIMIT"))]
  }

  // ------------------------------------------------------------ the constructor

  /** `options || {}` */
  function Effective(options: Option<Options>): (o: Options)
    ensures options.Some? ==> o == options.value
    ensures options.None? ==> o == NoOptions
  {
    options.GetOr(NoOptions)
  }

  /** The user tags with the service identity added. */
  function IdentifiedTags(o: Options, platform: Platform, parse: string -> map<string, Value>): map<string, Value> {
    var env := platform.env;
    var user := UserTags(o, env, parse);
    Merge(user, TagMap(IdentityTags(Service(o, env, user, platform.service), Environment(o, env, user),
      Version(o, env, user, platform.appVersion))), parse)
  }

  /** The tags `new Config(options)` leaves on `tags`: the identified tags,
      then `runtime-id` when that experiment is on. */
  function ResolvedTags(o: Options, platform: Platform, runtimeId: string, parse: string -> map<string, Value>): map<string, Value> {
    var tags := IdentifiedTags(o, platform, parse);
    if RuntimeIdEnabled(o) then Merge(tags, TagMap(map["runtime-id" := Str(runtimeId)]), parse) else tags
  }

  /** Builds `tags` as the constructor does: a fresh object, the three tag
      variables and the option added in turn, then the service identity read
      off those tags. */
  method NewTags(o: Options, platform: Platform, parse: string -> map<string, Value>) returns (t: JsObject)
    ensures fresh(t)
    ensures t.props == IdentifiedTags(o, platform, parse)
  {
    var env := platform.env;
    t := new JsObject();
    Add(t, EnvTags(env, "DD_TAGS"), parse);
    Add(t, EnvTags(env, "DD_TRACE_TAGS"), parse);
    Add(t, EnvTags(env, "DD_TRACE_GLOBAL_TAGS"), parse);
    Add(t, o.tags, parse);
    var service := Service(o, env, t.props, platform.service);
    var version := Version(o, env, t.props, platform.appVersion);
    var envName := Environment(o, env, t.props);
    Add(t, TagMap(IdentityTags(service, envName, version)), parse);
  }

  /** The tags object as the finished configuration holds it: the
      identified tags, plus `runtime-id` when that experiment is on. */
  method NewResolvedTags(o: Options, platform: Platform, runtimeId: string,
                         parse: string -> map<string, Value>) returns (t: JsObject)
    ensures fresh(t)
    ensures t.props == ResolvedTags(o, platform, runtimeId, parse)
  {
    t := NewTags(o, platform, parse);
    if RuntimeIdEnabled(o) {
      Add(t, TagMap(map["runtime-id" := Str(runtimeId)]), parse);
    }
  }

  lemma EmptyUnion(m: map<string, Value>)
    ensures map[] + m == m
  {
  }

  /** `(options.experimental && options.experimental.sampler) || {}`: the
      caller's own sampler object, else a fresh empty one. */
  method SamplerObject(o: Options) returns (sampler: JsObject)
    ensures CallerSampler(o) == {} ==> fresh(sampler) && sampler.props == map[]
    ensures CallerSampler(o) != {} ==> sampler == o.experimental.value.sampler.value
  {
    if o.experimental.Some? && o.experimental.value.sampler.Some? {
      sampler := o.experimental.value.sampler.value;
    } else {
      sampler := new JsObject();
    }
  }

  /** The tracer's resolved configuration. Each field is written once, by the
      constructor; the tags object is extended once more afterwards. */
  class Config {
    const enabled: bool
    const debug: bool
    const logInjection: bool
    const env: Value
    const url: AgentUrl
    const site: Value
    const hostname: Value
    const port: string
    const flushInterval: Value
    const sampleRate: Value
    const logger: Value
    const plugins: bool
    const service: Value
    const version: Value
    const analytics: bool
    const tags: JsObject
    const dogstatsd: Dogstatsd
    const runtimeMetrics: bool
    const trackAsyncScope: bool
    const experimental: Experimental
    const reportHostname: bool
    const scope: Scope
    const clientToken: Value
    const logLevel: Value
    const profiling: Profiling
    const lookup: Value
    const startupLogsEnabled: bool

    /** The settings that are plain values, as `new Config(options)` resolves them. */
    ghost predicate Settled(options: Option<Options>, platform: Platform, parseTags: string -> map<string, Value>,
                            parseUrl: Value -> ParsedUrl)
    {
      (var o, e := Effective(options), platform.env;
          && enabled == FlagSetting(o.enabled, "DD_TRACE_ENABLED", e, true)
          && debug == FlagSetting(o.debug, "DD_TRACE_DEBUG", e, false)
          && logInjection == FlagSetting(o.logInjection, "DD_LOGS_INJECTION", e, false)
          && runtimeMetrics == FlagSetting(o.runtimeMetrics, "DD_RUNTIME_METRICS_ENABLED", e, false)
          && reportHostname == FlagSetting(o.reportHostname, "DD_TRACE_REPORT_HOSTNAME", e, false)
          && profiling == Profiling(FlagSetting(o.profiling, "DD_PROFILING_ENABLED", e, false))
          && analytics == Analytics(o, e)
          && startupLogsEnabled == StartupLogsEnabled(e)
          && plugins == Plugins(o)
          && trackAsyncScope == TrackAsyncScope(o))
      &&
      (var o, e := Effective(options), platform.env;
          && url == AgentUrlOf(RawUrl(o, e), parseUrl)
          && hostname == Hostname(GivenHostname(o, e), url)
          && port == Port(GivenPort(o, e), url)
          && dogstatsd == DogstatsdOf(o, e, hostname)
          && site == Site(o, e)
          && sampleRate == SampleRate(o)
          && flushInterval == FlushInterval(o)
          && scope == ScopeOf(o, e)
          && clientToken == ClientToken(o, e)
          && logLevel == LogLevel(o, e)
          && logger == o.logger
          && lookup == o.lookup)
      &&
      (var o, e := Effective(options), platform.env;
          var user := UserTags(o, e, parseTags);
          && service == Service(o, e, user, platform.service)
          && version == Version(o, e, user, platform.appVersion)
          && env == Environment(o, e, user))
      &&
      (var o, e := Effective(options), platform.env;
          && experimental.b3 == B3(o)
          && experimental.runtimeId == RuntimeIdEnabled(o)
          && experimental.exporter == Exporter(o)
          && experimental.peers == Peers(o))
    }

    /** The field writes of `new Config(options)`, given the tags object and
        the sampler object it has built by then. */
    constructor (options: Option<Options>, platform: Platform, parseTags: string -> map<string, Value>,
                 parseUrl: Value -> ParsedUrl, tags: JsObject, sampler: JsObject)
      ensures Settled(options, platform, parseTags, parseUrl)
      ensures this.tags == tags && experimental.sampler == sampler
    {
      var o := Effective(options);
      var e := platform.env;

      var user := UserTags(o, e, parseTags);
      var agentUrl := AgentUrlOf(RawUrl(o, e), parseUrl);
      var agentHost := Hostname(GivenHostname(o, e), agentUrl);

      enabled := FlagSetting(o.enabled, "DD_TRACE_ENABLED", e, true);
      debug := FlagSetting(o.debug, "DD_TRACE_DEBUG", e, false);
      logInjection := FlagSetting(o.logInjection, "DD_LOGS_INJECTION", e, false);
      env := Environment(o, e, user);
      url := agentUrl;
      site := Site(o, e);
      hostname := agentHost;
      port := Port(GivenPort(o, e), agentUrl);
      flushInterval := FlushInterval(o);
      sampleRate := SampleRate(o);
      logger := o.logger;
      plugins := Plugins(o);
      service := Service(o, e, user, platform.service);
      version := Version(o, e, user, platform.appVersion);
      analytics := Analytics(o, e);
      this.tags := tags;
      dogstatsd := DogstatsdOf(o, e, agentHost);
      runtimeMetrics := FlagSetting(o.runtimeMetrics, "DD_RUNTIME_METRICS_ENABLED", e, false);
      trackAsyncScope := TrackAsyncScope(o);
      experimental := Experimental(B3(o), RuntimeIdEnabled(o), Exporter(o), Peers(o), sampler);
      reportHostname := FlagSetting(o.reportHostname, "DD_TRACE_REPORT_HOSTNAME", e, false);
      scope := ScopeOf(o, e);
      clientToken := ClientToken(o, e);
      logLevel := LogLevel(o, e);
      profiling := Profiling(FlagSetting(o.profiling, "DD_PROFILING_ENABLED", e, false));
      lookup := o.lookup;
      startupLogsEnabled := StartupLogsEnabled(e);
    }
  }

  /** `new Config(options)`: builds the tags object, fills in the sampler
      (the caller's own object when it passes one, updated in place and
      shared with the result) and writes the fields. The source adds the
      `runtime-id` tag after the field writes; the tags object is fresh and
      no other step reads it, so adding it first leaves the result the same. */
  method NewConfig(options: Option<Options>, platform: Platform, runtimeId: string,
                   parseTags: string -> map<string, Value>, parseUrl: Value -> ParsedUrl) returns (c: Config)
    modifies CallerSampler(Effective(options))
    ensures fresh(c) && fresh(c.tags)
    ensures c.Settled(options, platform, parseTags, parseUrl)
    ensures c.tags.props == ResolvedTags(Effective(options), platform, runtimeId, parseTags)
    ensures var o, e := Effective(options), platform.env;
      && (CallerSampler(o) == {} ==>
            fresh(c.experimental.sampler) && c.experimental.sampler.props == SamplerUpdate(map[], e))
      && (CallerSampler(o) != {} ==>
            var s := o.experimental.value.sampler.value;
            c.experimental.sampler == s && s.props == old(s.props) + SamplerUpdate(old(s.props), e))
  {
    var o := Effective(options);
    var e := platform.env;
    var tags := NewResolvedTags(o, platform, runtimeId, parseTags);
    var sampler := SamplerObject(o);
    ghost var given := sampler.props;
    sampler.Assign(SamplerUpdate(sampler.props, e));
    if CallerSampler(o) == {} {
      assert sampler.props == SamplerUpdate(map[], e) by {
        assert given == map[];
        EmptyUnion(SamplerUpdate(map[], e));
      }
    }
    ghost var filled := sampler.props;
    assert CallerSampler(o) != {} ==> filled == old(sampler.props) + SamplerUpdate(old(sampler.props), e);
    c := new Config(options, platform, parseTags, parseUrl, tags, sampler);
  }
}
