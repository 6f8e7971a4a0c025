# Tracer configuration resolver

A Dafny model of `new Config(options)` in `packages/dd-trace/src/config.js`,
the tracer's configuration constructor. It resolves every setting from three
sources: the caller's options, the process environment and literal defaults.
The model covers:

- the precedence chain of each setting: `coalesce(option, env A, env B, default)`
  from the koalas package, where `undefined`, `null` and NaN fall through;
- the `||` chains for `service`, `hostname` and `port`, where any falsy value
  falls through;
- boolean normalisation: `String(x) === 'true'`;
- `sampleRate` clamped to [0, 1] and `flushInterval` read by `parseInt`;
- the agent URL, host and port fallbacks, and the DogStatsD host and port;
- the scope override and the experimental sub-record;
- the tags object, built up by successive `tagger.add` merges;
- the caller's sampler object, filled in place by `Object.assign`.

Modules:

- `Wrappers`: `Option`.
- `Decimal`: decimal digit text. Reading back the text written for a
  natural number is proved to give that number.
- `JsValues`: the JavaScript values the constructor sees and the parts of
  the language it relies on. These are truthiness, `String(x)`, the number
  conversion behind `Math.max`/`Math.min`, `parseInt(x, 10)` and `||`. The
  module also has `JsObject`, a plain object whose properties are written in
  place.
- `Koalas`: `coalesce` for any number of arguments, with the two-, three-
  and four-argument forms the constructor uses proved equal to it.
- `Tagger`: `tagger.add`, taken as a left-to-right override of the
  carrier's properties.
- `TracerConfig`: one function per setting, the methods that build the
  tags and sampler objects in place, and the `Config` class.
- `ConfigProperties`: properties that relate several settings or fix
  concrete inputs. These include the defaults when nothing is given, the
  tags' content, and idempotence of the sampler fill.

`Config` fields are written once, so they are `const`. The source's constructor
also changes two objects in place: the tags object and the caller's sampler.
The model splits that work between two members:

- `NewConfig` is `new Config(options)` as a whole. It builds the tags
  object, fills in the sampler, and then runs the class constructor.
- The class constructor writes the fields. `Settled` states the value of each
  field as a function of the inputs.

Some results follow from the code and may be unexpected:

- A `null` sample rate converts to 0, not to the default 1.
- A host given as empty text falls through to the URL's host, because the
  code uses `||` rather than `coalesce` there.
- With no agent host and no URL, the agent host is `null` and the DogStatsD
  host is the text `"null"`.
- A falsy port that holds a value, such as `0`, with no URL gives the port
  text `"null"`.

## Model

| member | source | states |
|---|---|---|
| `Koalas.Coalesce` | packages/dd-trace/src/config.js:16-41 | the result is one of the arguments, and it holds a value exactly when some argument does |
| `Koalas.CoalescePicksFirst` | packages/dd-trace/src/config.js:16-19 | the first argument holding a value is the result, whatever comes after it |
| `Koalas.CoalesceFallsThrough` | packages/dd-trace/src/config.js:28-29 | when no argument holds a value (a NaN from `Math.max` or `parseInt` included) the last argument is the result |
| `Koalas.CoalesceOfTwo` | packages/dd-trace/src/config.js:30 | the two-argument form equals the general `coalesce` |
| `Koalas.CoalesceOfThree` | packages/dd-trace/src/config.js:21 | the three-argument form equals the general `coalesce` |
| `Koalas.CoalesceOfFour` | packages/dd-trace/src/config.js:20 | the four-argument form equals the general `coalesce` |
| `JsValues.FalsyValues` | packages/dd-trace/src/config.js:85 | `Truthy` (`!!v`) is false exactly for `undefined`, `null`, `false`, NaN, `0` and the empty string |
| `JsValues.Or` | packages/dd-trace/src/config.js:49-54 | `a \|\| b` is `a` when truthy, else `b` |
| `JsValues.MathMax` | packages/dd-trace/src/config.js:28 | NaN exactly when an operand is NaN, otherwise one of the operands and at least both |
| `JsValues.MathMin` | packages/dd-trace/src/config.js:28 | NaN exactly when an operand is NaN, otherwise one of the operands and at most both |
| `JsValues.ParseIntText` | packages/dd-trace/src/config.js:29 | `parseInt` of text is NaN or a whole number; `ParseIntOfSigned` and `ParseIntOfNoDigits` say which |
| `JsValues.ParseIntOfSigned` | packages/dd-trace/src/config.js:29 | white space, an optional sign and a run of digits read as that run's value, negated after `-`, whatever follows the run |
| `JsValues.ParseIntOfNoDigits` | packages/dd-trace/src/config.js:29 | when no digit follows the white space and the optional sign, the result is NaN |
| `JsValues.ParseInt` | packages/dd-trace/src/config.js:29 | `parseInt(v, 10)` is NaN or a whole number |
| `JsValues.ParseIntReadsText` | packages/dd-trace/src/config.js:29 | `ParseInt(v)` equals reading the text `String(v)` with `parseInt`, for every value |
| `JsValues.ParseIntOfNumberText` | packages/dd-trace/src/config.js:29 | reading a finite number's text back with `parseInt` gives the number rounded toward zero |
| `JsValues.TrimStartSuffix` | packages/dd-trace/src/config.js:28 | trimming the start keeps a suffix of the text |
| `JsValues.TrimEndPrefix` | packages/dd-trace/src/config.js:28 | trimming the end keeps a prefix of the text |
| `JsValues.TrimStartOf` | packages/dd-trace/src/config.js:29 | leading white space before a non-space character is exactly what trimming the start removes |
| `JsValues.TrimEndOf` | packages/dd-trace/src/config.js:28 | trailing white space after a non-space character is exactly what trimming the end removes |
| `JsValues.UnsignedDecimalOfDigits` | packages/dd-trace/src/config.js:28 | a run of digits converts to the number it writes |
| `JsValues.UnsignedDecimalOfFraction` | packages/dd-trace/src/config.js:28 | digits, a point and digits convert to the whole part plus the fraction digits over the matching power of ten |
| `JsValues.StringToNumberOfSigned` | packages/dd-trace/src/config.js:28 | text made of white space, an optional sign, a literal that starts with neither a sign, white space nor a `0x`/`0o`/`0b` prefix, and white space converts (`Number(s)`, as `Math.max` does) to the literal's unsigned value, negated after `-` |
| `JsValues.UnsignedDecimalOfExponent` | packages/dd-trace/src/config.js:28 | digits, `e`, an optional sign and digits convert to the digits' value times ten to that signed power |
| `JsValues.UnsignedDecimalOfWord` | packages/dd-trace/src/config.js:28 | text that starts with neither a digit nor a point and is not `Infinity` is no literal: NaN |
| `JsValues.StringToNumberOfExponent` | packages/dd-trace/src/config.js:28 | white space, an optional sign, a run of digits, a lowercase `e`, an optional sign and digits, and white space convert to the digits' value times ten to that signed power, negated after a leading `-` (such as `-15e-3`); a mantissa with a point, or a capital `E`, is not covered by this lemma |
| `JsValues.StringToNumberOfInfinity` | packages/dd-trace/src/config.js:28 | `Infinity` with an optional sign and surrounding white space converts to infinity of that sign |
| `JsValues.StringToNumberOfWord` | packages/dd-trace/src/config.js:28 | text that, after the white space and the optional sign, starts with neither a digit, a point, white space nor another sign and is not `Infinity` converts to NaN (`Number("abc")`) |
| `JsValues.StringToNumberOfRadix` | packages/dd-trace/src/config.js:28 | a `0x`, `0o` or `0b` prefix and digits, with surrounding white space, convert as a literal in radix 16, 8 or 2 |
| `JsValues.StringToNumberOfInteger` | packages/dd-trace/src/config.js:28 | text holding a signed run of digits converts to that integer |
| `JsValues.StringToNumberOfFraction` | packages/dd-trace/src/config.js:28 | text holding a signed decimal fraction converts to its value |
| `JsValues.IntegerText` | packages/dd-trace/src/config.js:81 | `String(i)` of an integer is its decimal digits, after `-` when negative |
| `JsValues.IntegerTextRoundTrip` | packages/dd-trace/src/config.js:28 | `Number(String(i))` is `i` for every integer |
| `JsValues.JsObject.constructor` | packages/dd-trace/src/config.js:42 | `{}` has no properties |
| `JsValues.JsObject.Assign` | packages/dd-trace/src/config.js:69-72 | `Object.assign` writes every given property over the object's own and leaves the others |
| `Decimal.DigitsValueOfNatText` | packages/dd-trace/src/config.js:29 | reading back the decimal text of a natural number gives that number |
| `Decimal.DigitPrefixOfRun` | packages/dd-trace/src/config.js:29 | a run of digits followed by a non-digit is read exactly up to the end of the run |
| `Tagger.Merge` | packages/dd-trace/src/config.js:44-47 | after a merge the keys are the old keys and the input's; the input's pairs win and other tags keep their values |
| `Tagger.Add` | packages/dd-trace/src/config.js:65 | `tagger.add` leaves on the carrier exactly the merge of its old properties with the input |
| `TracerConfig.EnvVar` | packages/dd-trace/src/config.js:16 | `platform.env(name)` is the variable's text when set and `undefined` otherwise |
| `TracerConfig.Effective` | packages/dd-trace/src/config.js:14 | the given options, or with none given an options object in which every option is absent |
| `TracerConfig.IsTrueText` | packages/dd-trace/src/config.js:74 | `IsTrue(v)` holds exactly when `String(v) === 'true'`; no number, `null`, `undefined` or object prints as `true` |
| `TracerConfig.FlagSetting` | packages/dd-trace/src/config.js:16-19 | an option holding a value decides the switch, else a set variable, else the default; the switch is on exactly when the winner's text is `true` |
| `TracerConfig.Analytics` | packages/dd-trace/src/config.js:33-37 | the option, else `DD_TRACE_ANALYTICS_ENABLED`, else `DD_TRACE_ANALYTICS` decides; off when none is given |
| `TracerConfig.StartupLogsEnabled` | packages/dd-trace/src/config.js:41 | startup logs are on exactly when `DD_TRACE_STARTUP_LOGS` is unset or the text `true` |
| `TracerConfig.Plugins` | packages/dd-trace/src/config.js:30 | plugins are on unless the option holds a falsy value |
| `TracerConfig.TrackAsyncScope` | packages/dd-trace/src/config.js:95 | on unless the option is exactly `false` |
| `TracerConfig.SampleRate` | packages/dd-trace/src/config.js:28 | always a finite number in [0, 1]; an option already in range is kept, one below 0 gives 0, one above 1 gives 1, and one that does not convert to a number gives 1 |
| `TracerConfig.FlushInterval` | packages/dd-trace/src/config.js:29 | always a whole number: the one `parseInt` reads from the option, else 2000 |
| `TracerConfig.RawUrl` | packages/dd-trace/src/config.js:20 | the option, else `DD_TRACE_AGENT_URL`, else `DD_TRACE_URL`, else `null` |
| `TracerConfig.AgentUrlOf` | packages/dd-trace/src/config.js:78 | a truthy URL is parsed; a falsy one is kept as it is |
| `TracerConfig.GivenHostname` | packages/dd-trace/src/config.js:22-26 | the option, else `DD_AGENT_HOST`, else `DD_TRACE_AGENT_HOSTNAME`, else `undefined` |
| `TracerConfig.Hostname` | packages/dd-trace/src/config.js:80 | a truthy given host wins, else the parsed URL's host name, else the falsy URL value |
| `TracerConfig.GivenPort` | packages/dd-trace/src/config.js:27 | the option, else `DD_TRACE_AGENT_PORT`, else 8126 |
| `TracerConfig.Port` | packages/dd-trace/src/config.js:81 | the text of a truthy given port, else the parsed URL's port, else the text of the falsy URL value |
| `TracerConfig.DogstatsdOf` | packages/dd-trace/src/config.js:90-93 | each field is the group's option, else its variable, else the agent host (for the host) or 8125 (for the port), always as text |
| `TracerConfig.Site` | packages/dd-trace/src/config.js:21 | the option, else `DD_SITE`, else `datadoghq.com` |
| `TracerConfig.GivenScope` | packages/dd-trace/src/config.js:39 | the option, else `DD_TRACE_SCOPE`, else `undefined` |
| `TracerConfig.ScopeOf` | packages/dd-trace/src/config.js:104 | the no-op scope exactly when `DD_CONTEXT_PROPAGATION` is the text `false`, otherwise the given scope |
| `TracerConfig.ClientToken` | packages/dd-trace/src/config.js:40 | the option, else `DD_CLIENT_TOKEN`, else `undefined` |
| `TracerConfig.LogLevel` | packages/dd-trace/src/config.js:106-110 | the option, else `DD_TRACE_LOG_LEVEL`, else `debug` |
| `TracerConfig.UserTags` | packages/dd-trace/src/config.js:44-47 | the keys of the three tag variables and of the option; each key takes its value from the last source holding it, in the order `DD_TAGS`, `DD_TRACE_TAGS`, `DD_TRACE_GLOBAL_TAGS`, the option |
| `TracerConfig.Service` | packages/dd-trace/src/config.js:49-54 | never falsy: the first truthy of the option, `DD_SERVICE`, `DD_SERVICE_NAME`, the `service` tag and the platform's name, else `node` |
| `TracerConfig.Version` | packages/dd-trace/src/config.js:56-61 | the option, else `DD_VERSION`, else the `version` tag, else the application version |
| `TracerConfig.Environment` | packages/dd-trace/src/config.js:63 | the option, else `DD_ENV`, else the `env` tag |
| `TracerConfig.B3` | packages/dd-trace/src/config.js:97 | on exactly when the experimental group is given and its `b3` is truthy |
| `TracerConfig.RuntimeIdEnabled` | packages/dd-trace/src/config.js:98 | on exactly when the experimental group is given and its `runtimeId` is truthy |
| `TracerConfig.Exporter` | packages/dd-trace/src/config.js:99 | the group's exporter, `undefined` without the group |
| `TracerConfig.Peers` | packages/dd-trace/src/config.js:100 | never falsy: the origin whitelist when truthy, else `[]` |
| `TracerConfig.SamplerUpdate` | packages/dd-trace/src/config.js:69-72 | writes exactly `sampleRate` and `rateLimit`; each keeps the sampler's own value when it holds one, else takes its variable |
| `TracerConfig.NewTags` | packages/dd-trace/src/config.js:42-65 | a fresh object holding the user tags merged in order, then the resolved service, env and version |
| `TracerConfig.NewResolvedTags` | packages/dd-trace/src/config.js:117-121 | the identified tags, plus `runtime-id` exactly when that experiment is on |
| `TracerConfig.SamplerObject` | packages/dd-trace/src/config.js:67 | the caller's sampler object when given, else a fresh empty one |
| `TracerConfig.Config.constructor` | packages/dd-trace/src/config.js:74-115 | every field holds its resolved setting (`Settled`), with the given tags and sampler objects |
| `TracerConfig.NewConfig` | packages/dd-trace/src/config.js:12-122 | a fresh configuration with every setting resolved and the finished tags; the caller's sampler is shared and filled in place, or a fresh filled one is made |
| `ConfigProperties.FlushIntervalOfNumber` | packages/dd-trace/src/config.js:29 | a number given as `flushInterval` is kept without its fraction |
| `ConfigProperties.FlushIntervalOfText` | packages/dd-trace/src/config.js:29 | text starting with digits is read up to its first non-digit (`"500ms"` is 500) |
| `ConfigProperties.FlushIntervalOfWord` | packages/dd-trace/src/config.js:29 | text whose first character is not white space, a sign or a digit gives 2000 |
| `ConfigProperties.SampleRateOfNull` | packages/dd-trace/src/config.js:28 | a `null` sample rate gives 0 |
| `ConfigProperties.HalfText` | packages/dd-trace/src/config.js:28 | the text `0.5` converts to one half |
| `ConfigProperties.SampleRateOfHalfText` | packages/dd-trace/src/config.js:28 | a sample rate given as the text `0.5` is one half |
| `ConfigProperties.DefaultPortTexts` | packages/dd-trace/src/config.js:92 | the default ports print as `8126` and `8125` |
| `ConfigProperties.NothingGiven` | packages/dd-trace/src/config.js:14-115 | with no options and an empty environment every setting takes its default: tracing and startup logs on, other switches off, rate 1, flush 2000, port `8126`, DogStatsD `null:8125`, service from the platform or `node` |
| `ConfigProperties.OptionBeatsEnvironment` | packages/dd-trace/src/config.js:16 | an option holding a value decides a switch whatever the environment holds |
| `ConfigProperties.FlagSpellings` | packages/dd-trace/src/config.js:75 | `true` and `"true"` turn a switch on; `"TRUE"`, `"1"` and `1` do not |
| `ConfigProperties.AddressFromUrl` | packages/dd-trace/src/config.js:78-93 | with no host given, the agent host and the DogStatsD host come from the URL |
| `ConfigProperties.DefaultAgentPort` | packages/dd-trace/src/config.js:81 | with no port given the agent port is `8126`, whatever the URL |
| `ConfigProperties.EmptyPortUsesUrl` | packages/dd-trace/src/config.js:27 | an empty port text falls through to the URL's port |
| `ConfigProperties.TagsCarryIdentity` | packages/dd-trace/src/config.js:49-65 | the final tags hold the resolved service, env and version, keep other user tags, and hold `runtime-id` exactly when that experiment is on (then the runtime id) or a user tag has that name (then, with the experiment off, the user's value) |
| `ConfigProperties.LaterTagsWin` | packages/dd-trace/src/config.js:46 | a tag in `DD_TRACE_GLOBAL_TAGS` wins over the same tag in `DD_TAGS` |
| `ConfigProperties.SamplerFillIdempotent` | packages/dd-trace/src/config.js:69 | filling the sampler a second time changes nothing |
| `ConfigProperties.SamplerKeepsCallerSettings` | packages/dd-trace/src/config.js:70-71 | the sampler's other properties and any rate the caller set survive the fill |

## Left out

- URL parsing (the url-parse package) is not part of this model. It is a
  parameter `parseUrl` that yields a host name and a port as text.
- The koalas package is not part of this model. Its `coalesce` is taken
  to return the first argument that is neither `undefined`, `null` nor
  NaN, and the last argument when there is none.
- The tagger is not part of this model. `tagger.add` is taken to be an
  override of the carrier's properties by the input's pairs. How a
  tag-list string such as `DD_TAGS` is read is a parameter `parse`.
- `platform.env`, `platform.service()` and `platform.appVersion()` read the
  process. The environment is a map from names to text, and the other two
  are given values.
- `id()` is random, so the runtime id is a parameter of `NewConfig`.
- `logger`, `lookup` and `exporter` are copied through unread. Objects and
  functions are modelled only by their identity.
- `scopes.NOOP` is the `Noop` case of `Scope`.
- Numbers are exact reals. The model does not capture negative zero, the
  rounding of 64-bit floats, or the exponent form of very large and very
  small numbers; its number text stops after 20 fraction digits.
  Because of this, `parseInt` of a number of 1e21 or more is its integer
  part here, while JavaScript reads only the first digit of `1e+21`. In the
  same way a nonzero number below 1e-6 in magnitude prints as digits after
  `0.` here, so `parseInt(5e-7, 10)` is 0 here, while JavaScript prints
  `5e-7` and reads 5.
- Overflow and underflow are not modelled either: `parseInt` of a run of
  more than 309 digits, or `Number` of text such as `1e400`, is infinity in
  JavaScript and a large finite value here (so `flushInterval` there can be
  `Infinity`), and text such as `1e-400` converts to 0 in JavaScript and to
  a tiny nonzero value here (so a sample rate given that way is 0 there).
- TracerConfig.FlushInterval: promises a finite whole number, because the
  model's numbers are exact reals; `parseInt` of more than 309 digits is
  `Infinity` in JavaScript and is not modelled.
- TracerConfig.SampleRate: a rate given as text such as `1e-400` is a tiny
  positive value here, while JavaScript rounds it to 0.
- ConfigProperties.FlushIntervalOfNumber: a number of 1e21 or more, or a
  nonzero number below 1e-6 in magnitude, is truncated here, while the
  source reads the first digit of its exponent form.
- Conversions through `toString` or `valueOf` of objects are not modelled.
  An object prints as `[object Object]` and converts to NaN.
- The `options`, `options.dogstatsd` and `options.experimental` groups are
  either given as records or absent. A falsy non-object value (`null`, `0`,
  `false`, `''`) is taken as an absent group, and a truthy non-object value
  is not modelled.
- TracerConfig.Exporter: for an experimental group given as a falsy
  non-object value, the source's `exporter` is that value (`null`, `0`,
  `false` or `''`), while the model gives `undefined`, since it does not
  tell these values from an absent group.
- `options.experimental.sampler` is either an object or absent.
- The runtime-id tag is added before the field writes rather than after
  them. The tags object is fresh and nothing else reads it, so the result
  is the same.
- `TracerConfig.Config.constructor` takes the tags and sampler objects that
  `NewConfig` has built. The pair together is `new Config(options)`.
