/** Properties of the resolved configuration that relate several settings,
    or a setting to a concrete input. */
module ConfigProperties {
  import opened Wrappers
  import opened Decimal
  import opened JsValues
  import opened Koalas
  import opened Tagger
  import opened TracerConfig

  // ------------------------------------------------------------ flushInterval

  /** A number given as `flushInterval` is kept without its fraction. */
  lemma FlushIntervalOfNumber(o: Options, x: real)
    requires o.flushInterval == Number(Finite(x))
    ensures FlushInterval(o) == Number(Finite(Trunc(x) as real))
  {
  }

  /** Text given as `flushInterval` that starts with digits is read up to its
      first non-digit: `"500ms"` is 500. */
  lemma FlushIntervalOfText(o: Options, digits: string, rest: string)
    requires digits != [] && AllDigits(digits)
    requires rest == [] || !IsDigit(rest[0])
    requires o.flushInterval == Str(digits + rest)
    ensures FlushInterval(o) == Number(Finite(DigitsValue(digits) as real))
  {
    var t := digits + rest;
    assert t[0] == digits[0];
    assert TrimStart(t) == t;
    DigitPrefixOfRun(digits, rest);
  }

  /** Text whose first character is not white space, a sign or a digit gives
      the default of 2000. */
  lemma FlushIntervalOfWord(o: Options, word: string)
    requires word != [] && !IsDigit(word[0]) && !IsWhiteSpace(word[0]) && word[0] != '-' && word[0] != '+'
    requires o.flushInterval == Str(word)
    ensures FlushInterval(o) == Number(Finite(2000.0))
  {
    assert TrimStart(word) == word;
  }

  // ------------------------------------------------------------ sampleRate

  /** `null` converts to 0, so a `null` sample rate keeps nothing rather than
      falling back to 1. */
  lemma SampleRateOfNull(o: Options)
    requires o.sampleRate == Null
    ensures SampleRate(o) == Number(Finite(0.0))
  {
  }

  /** The text `0.5` is the whole part `0`, a point and the fraction `5`,
      which write one half. */
  lemma HalfParts()
    ensures "" + "" + ("0" + ("." + "5")) + "" == "0.5"
    ensures DecimalValue("0", "5") == 0.5
  {
    assert DigitsValue("5") == 5 by { assert "5"[..0] == []; }
    assert DigitsValue("0") == 0 by { assert "0"[..0] == []; }
    assert Pow10(|"5"|) == 10;
  }

  /** The text `0.5` reads as one half. */
  lemma HalfText()
    ensures StringToNumber("0.5") == Finite(0.5)
  {
    HalfParts();
    StringToNumberOfFraction("", "", "0", "5", "");
  }

  /** A sample rate given as text is converted like a number: `"0.5"` keeps
      half the traces. */
  lemma SampleRateOfHalfText(o: Options)
    requires o.sampleRate == Str("0.5")
    ensures SampleRate(o) == Number(Finite(0.5))
  {
    HalfText();
  }

  // ------------------------------------------------------------ defaults

  /** The text of the default agent and DogStatsD ports. */
  lemma DefaultPortTexts()
    ensures ToStr(Number(Finite(8126.0))) == "8126"
    ensures ToStr(Number(Finite(8125.0))) == "8125"
  {
    assert NatText(8126) == "8126" by {
      assert NatText(8) == "8";
      assert NatText(81) == "81";
      assert NatText(812) == "812";
    }
    assert NatText(8125) == "8125" by {
      assert NatText(8) == "8";
      assert NatText(81) == "81";
      assert NatText(812) == "812";
    }
  }

  /** With no options and an empty environment, the configuration holds the
      documented defaults: tracing and startup logs on, every other switch
      off, every sampled trace kept, a flush every 2000 ms, the agent on port
      8126 with no host, DogStatsD on port 8125 of the host `"null"`. */
  lemma {:induction false} NothingGiven(c: Config, platform: Platform, parseTags: string -> map<string, Value>,
                                        parseUrl: Value -> ParsedUrl)
    requires platform.env == map[]
    requires c.Settled(None, platform, parseTags, parseUrl)
    ensures c.enabled && c.startupLogsEnabled && c.plugins && c.trackAsyncScope
    ensures !c.debug && !c.logInjection && !c.analytics && !c.runtimeMetrics && !c.reportHostname
    ensures !c.profiling.enabled
    ensures c.sampleRate == Number(Finite(1.0)) && c.flushInterval == Number(Finite(2000.0))
    ensures c.url == Unset(Null) && c.hostname == Null && c.port == "8126"
    ensures c.dogstatsd == Dogstatsd("null", "8125")
    ensures c.site == Str("datadoghq.com") && c.logLevel == Str("debug")
    ensures c.scope == Selected(Undefined) && c.clientToken == Undefined
    ensures c.service == (if Truthy(platform.service) then platform.service else Str("node"))
    ensures c.version == platform.appVersion && c.env == Undefined
    ensures !c.experimental.b3 && !c.experimental.runtimeId
    ensures c.experimental.exporter == Undefined && c.experimental.peers == Arr([])
  {
    var o := NoOptions;
    var e := platform.env;
    DefaultPortTexts();
    assert UserTags(o, e, parseTags) == map[];
  }

  // ------------------------------------------------------------ precedence

  /** A present option decides a switch whatever the environment says. */
  lemma {:induction false} OptionBeatsEnvironment(option: Value, name: string, env1: Env, env2: Env, default: bool)
    requires HasValue(option)
    ensures FlagSetting(option, name, env1, default) == FlagSetting(option, name, env2, default)
    ensures FlagSetting(option, name, env1, default) <==> IsTrue(option)
  {
    IsTrueText(option);
  }

  /** A switch is on exactly when the winning candidate is `true` or the
      text `true`; `"TRUE"`, `1` and `"1"` leave it off. */
  lemma FlagSpellings(name: string, env: Env, default: bool)
    ensures FlagSetting(Bool(true), name, env, default)
    ensures FlagSetting(Str("true"), name, env, default)
    ensures !FlagSetting(Str("TRUE"), name, env, default)
    ensures !FlagSetting(Str("1"), name, env, default)
    ensures !FlagSetting(Number(Finite(1.0)), name, env, default)
  {
    IsTrueText(Number(Finite(1.0)));
  }

  // ------------------------------------------------------------ agent address

  /** The agent host comes from the URL only when no host candidate is
      truthy, and the port from the URL only when the port candidate is
      falsy; the DogStatsD host then follows the agent host. */
  lemma {:induction false} AddressFromUrl(o: Options, env: Env, parseUrl: Value -> ParsedUrl)
    requires !HasValue(o.hostname) && "DD_AGENT_HOST" !in env && "DD_TRACE_AGENT_HOSTNAME" !in env
    requires Truthy(RawUrl(o, env))
    requires o.dogstatsd.None? && "DD_DOGSTATSD_HOSTNAME" !in env
    ensures var url := AgentUrlOf(RawUrl(o, env), parseUrl);
      var host := Hostname(GivenHostname(o, env), url);
      && host == Str(parseUrl(RawUrl(o, env)).hostname)
      && DogstatsdOf(o, env, host).hostname == parseUrl(RawUrl(o, env)).hostname
  {
  }

  /** With no port given anywhere the agent port is `"8126"`, whatever the URL
      says, since the default 8126 is truthy. */
  lemma {:induction false} DefaultAgentPort(o: Options, env: Env, url: AgentUrl)
    requires !HasValue(o.port) && "DD_TRACE_AGENT_PORT" !in env
    ensures Port(GivenPort(o, env), url) == "8126"
  {
    DefaultPortTexts();
  }

  /** An empty port text falls through to the URL's port. */
  lemma EmptyPortUsesUrl(o: Options, env: Env, u: ParsedUrl)
    requires o.port == Str("")
    ensures Port(GivenPort(o, env), Parsed(u)) == u.port
  {
  }

  // ------------------------------------------------------------ tags

  /** The identified tags hold the resolved service, environment and
      version over the user tags, and keep every other user tag. */
  lemma {:induction false} IdentifiedTagsContent(o: Options, platform: Platform, parse: string -> map<string, Value>)
    ensures var e := platform.env;
      var user := UserTags(o, e, parse);
      var named := IdentifiedTags(o, platform, parse);
      && named.Keys == user.Keys + {"service", "env", "version"}
      && ("runtime-id" in named <==> "runtime-id" in user)
      && named["service"] == Service(o, e, user, platform.service)
      && named["env"] == Environment(o, e, user)
      && named["version"] == Version(o, e, user, platform.appVersion)
      && (forall k :: k in user && k != "service" && k != "env" && k != "version" ==> named[k] == user[k])
  {
    var e := platform.env;
    var user := UserTags(o, e, parse);
    var identity := IdentityTags(Service(o, e, user, platform.service), Environment(o, e, user),
      Version(o, e, user, platform.appVersion));
    assert Pairs(TagMap(identity), parse) == identity;
    assert identity.Keys == {"service", "env", "version"};
    assert "runtime-id" !in identity by {
      assert |"runtime-id"| != |"service"| && |"runtime-id"| != |"env"| && |"runtime-id"| != |"version"|;
    }
  }

  /** Adding `runtime-id` keeps every other tag and sets that one. */
  lemma {:induction false} RuntimeIdTagAdded(tags: map<string, Value>, runtimeId: string, parse: string -> map<string, Value>)
    ensures var added := Merge(tags, TagMap(map["runtime-id" := Str(runtimeId)]), parse);
      && added.Keys == tags.Keys + {"runtime-id"}
      && added["runtime-id"] == Str(runtimeId)
      && (forall k :: k in tags && k != "runtime-id" ==> added[k] == tags[k])
  {
    var extra := map["runtime-id" := Str(runtimeId)];
    assert Pairs(TagMap(extra), parse) == extra;
  }

  /** The finished tags hold the resolved service, environment and version,
      keep every user tag of another name, and hold `runtime-id` exactly when
      that experiment is on (then with the runtime id) or a user tag of that
      name was given (then, with the experiment off, with the user's value). */
  lemma {:induction false} TagsCarryIdentity(o: Options, platform: Platform, runtimeId: string,
                                             parse: string -> map<string, Value>)
    ensures var tags := ResolvedTags(o, platform, runtimeId, parse);
      var e := platform.env;
      var user := UserTags(o, e, parse);
      && tags["service"] == Service(o, e, user, platform.service)
      && tags["env"] == Environment(o, e, user)
      && tags["version"] == Version(o, e, user, platform.appVersion)
      && Truthy(tags["service"])
      && ("runtime-id" in tags <==> RuntimeIdEnabled(o) || "runtime-id" in user)
      && (RuntimeIdEnabled(o) ==> tags["runtime-id"] == Str(runtimeId))
      && (!RuntimeIdEnabled(o) && "runtime-id" in user ==> tags["runtime-id"] == user["runtime-id"])
      && (forall k :: k in user && k != "service" && k != "env" && k != "version" && k != "runtime-id" ==>
            k in tags && tags[k] == user[k])
  {
    var e := platform.env;
    var user := UserTags(o, e, parse);
    var named := IdentifiedTags(o, platform, parse);
    var tags := ResolvedTags(o, platform, runtimeId, parse);
    IdentifiedTagsContent(o, platform, parse);
    if RuntimeIdEnabled(o) {
      RuntimeIdTagAdded(named, runtimeId, parse);
      assert tags == Merge(named, TagMap(map["runtime-id" := Str(runtimeId)]), parse);
    } else {
      assert tags == named;
    }
  }

  /** The later tag sources win: the option's tags over `DD_TRACE_GLOBAL_TAGS`
      over `DD_TRACE_TAGS` over `DD_TAGS`. */
  lemma {:induction false} LaterTagsWin(o: Options, env: Env, parse: string -> map<string, Value>, k: string)
    requires "DD_TAGS" in env && "DD_TRACE_GLOBAL_TAGS" in env
    requires k in parse(env["DD_TAGS"]) && k in parse(env["DD_TRACE_GLOBAL_TAGS"])
    requires k !in Pairs(o.tags, parse)
    ensures UserTags(o, env, parse)[k] == parse(env["DD_TRACE_GLOBAL_TAGS"])[k]
  {
    var t1 := Merge(map[], EnvTags(env, "DD_TAGS"), parse);
    var t2 := Merge(t1, EnvTags(env, "DD_TRACE_TAGS"), parse);
    var t3 := Merge(t2, EnvTags(env, "DD_TRACE_GLOBAL_TAGS"), parse);
    assert Pairs(EnvTags(env, "DD_TRACE_GLOBAL_TAGS"), parse) == parse(env["DD_TRACE_GLOBAL_TAGS"]);
    assert t3[k] == parse(env["DD_TRACE_GLOBAL_TAGS"])[k];
    assert UserTags(o, env, parse) == Merge(t3, o.tags, parse);
  }

  // ------------------------------------------------------------ sampler

  /** Filling in the sampler a second time changes nothing: a configuration
      built again from the same options finds the sampler as the first one
      left it. */
  lemma {:induction false} SamplerFillIdempotent(props: map<string, Value>, env: Env)
    ensures var once := props + SamplerUpdate(props, env);
      once + SamplerUpdate(once, env) == once
  {
    var once := props + SamplerUpdate(props, env);
    var again := SamplerUpdate(once, env);
    assert once["sampleRate"] == SamplerUpdate(props, env)["sampleRate"];
    assert once["rateLimit"] == SamplerUpdate(props, env)["rateLimit"];
    assert again["sampleRate"] == once["sampleRate"];
    assert again["rateLimit"] == once["rateLimit"];
    assert (once + again).Keys == once.Keys;
    forall k | k in once
      ensures (once + again)[k] == once[k]
    {
      if k in again {
        assert k == "sampleRate" || k == "rateLimit";
      }
    }
  }

  /** The sampler's other properties, and a rate the caller set, survive the
      fill. */
  lemma {:induction false} SamplerKeepsCallerSettings(props: map<string, Value>, env: Env)
    ensures var filled := props + SamplerUpdate(props, env);
      && (forall k :: k in props && k != "sampleRate" && k != "rateLimit" ==> filled[k] == props[k])
      && (HasValue(Property(props, "sampleRate")) ==> filled["sampleRate"] == props["sampleRate"])
      && (HasValue(Property(props, "rateLimit")) ==> filled["rateLimit"] == props["rateLimit"])
  {
    var update := SamplerUpdate(props, env);
    assert update.Keys == {"sampleRate", "rateLimit"};
  }
}
