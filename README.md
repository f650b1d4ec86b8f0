# k8s_event: level-filtered log-to-event bridge

A Dafny model of the core of the CoreDNS `k8s_event` plugin. The plugin republishes
selected log calls made by other plugins as Kubernetes Events attached to the
CoreDNS Pod, or to the `default` Namespace when the Pod is unknown. The model covers:

- the configuration stanza `k8s_event { level <name>+ ; rate <qps> [<burst> [<cacheSize>]] }`.
  Defaults come first. Then each directive is checked and folded into the settings.
  Each rate setting must lie in a closed range. At most one stanza is accepted.
- the severity filter. Level `L` owns bit `1 << L` of the `levels` mask. The ordinals
  are alphabetical: Debug 0, Error 1, Fatal 2, Info 3, Warning 4.
- the two emitter types, `listener` and its older twin `Interceptor`. Each has ten
  methods: a plain and a formatted variant for each of five severities. A call hands one
  `(ref, type, reason, plugin+message)` event to the recorder when the severity's bit is
  set, and does nothing otherwise.
- the object reference built from the namespace and pod-name environment values.
- the field wiring done at startup.

Modules, one per source file or concern:

| module | file | models |
|---|---|---|
| `Wrappers` | wrappers.dfy | `Option` (a nil-able pointer) and `Result` |
| `GoText` | gotext.dfy | `strings.ToLower`, `fmt.Sprint`, a subset of `fmt.Sprintf`, `%d` |
| `Plugin` | plugin.dfy | `Level`, level bits, `levelFromString` (setup.go) |
| `Events` | events.dfy | object references, events, the recorder, the type/reason table |
| `Listener` | listener.dfy | listener.go |
| `Interceptor` | interceptor.dfy | interceptor.go |
| `K8sEvent` | k8s_event.dfy | the `k8sEvent` record, `Init`, `Startup` |
| `Setup` | setup.dfy | `parse`, `parseStanza`, constants, range checks |

The collaborators that cannot be seen become parameters:

- `os.Getenv` becomes the two strings passed to `Init`.
- `rn.Int()` becomes the listener's `id`.
- `kubeapi.Client` and `plog.RegisterListener` become the outcomes passed to `Startup`.
- `strconv.ParseFloat` and `strconv.Atoi` become the functions in a `Strconv` value.
- The recorder is a class whose `events` sequence `Eventf` appends to. It follows the
  in-memory recorder of listener_test.go:19-34, but it stores the message as given (see
  "## Left out").

Points of the source that the model keeps as they are:

- The level ordinals are alphabetical: Debug 0, Error 1, Fatal 2, Info 3, Warning 4 (setup.go:144-150).
- `Startup` always builds the broadcaster from the correlator options; the source has no
  "rate configured" flag (k8s_event.go:63-67).
- The parse arms for `level` and `rate` are written as the two methods
  `Setup.ReadLevels` and `Setup.ApplyRate`. `Setup.ParseStanza` calls them from its
  directive loop, so each proof stays small.

## Model

| member | source | states |
|---|---|---|
| `GoText.ToLower` | setup.go:87 | lower-casing keeps the length; each A–Z rune becomes its lower-case letter, U+0130 becomes `i`, U+212A becomes `k`, and every other rune is unchanged |
| `GoText.ToLowerIdempotent` | setup.go:87 | lower-casing an already lower-cased string changes nothing |
| `GoText.ToLowerFixpoint` | setup.go:87 | a string is left unchanged by lower-casing exactly when it contains no A–Z, U+0130 or U+212A |
| `GoText.Decimal` | listener.go:31 | `%d` of a non-negative integer is a non-empty string of digits with no leading zero: it starts with `0` only for 0, and then it is exactly "0" |
| `GoText.DecimalRoundTrip` | listener.go:31 | the `%d` text of a non-negative id reads back as that id |
| `Plugin.Level.Ordinal` | setup.go:142-150 | every level's ordinal is below 5 |
| `Plugin.LevelFromString` | setup.go:152-166 | a level is returned exactly when the string is one of the five lower-case names, and it is the level of that name |
| `Plugin.BitIsShift` | setup.go:91 | a level's bit is `1 << ordinal` |
| `Plugin.BitsDistinct` | setup.go:144-150 | distinct levels own distinct bits, and a level's own bit enables only that level |
| `Plugin.OrBit` | setup.go:91 | OR-ing in a level's bit enables that level and leaves the others as they were; a mask below 32 stays below 32 |
| `Events.Recorder.constructor` | listener_test.go:19-21 | a new recorder holds no events |
| `Events.Recorder.Eventf` | listener_test.go:27-34 | `Eventf` appends exactly one event with the given reference, type, reason and message |
| `Events.EventType` | listener.go:34-92 | the event type is Normal exactly for Debug and Info, and Warning exactly for Warning, Error and Fatal |
| `Events.ReasonNamesLevel` | listener.go:34-92 | the reason is exactly "CoreDNS", then the level's name with only its first letter upper-cased (the name itself is lower-case ASCII) |
| `Events.ReasonsDistinct` | listener.go:34-92 | different levels give different reasons |
| `Events.Emitted` | listener.go:34-38 | a severity call forwards one event when its bit is set and none otherwise |
| `Events.EnabledLevelsAreLowBits` | listener.go:34-92 | the number of enabled levels is the number of set bits among bits 0..4 |
| `Events.AllSeveritiesCount` | listener_test.go:105-122 | `AllSeverities`, which `Listener.TenCalls` appends, holds twice as many events as there are set bits among bits 0..4 of the mask |
| `Events.AllSeveritiesCarryRef` | listener_test.go:163-190 | every forwarded event carries the emitter's reference |
| `Events.ReportedBy` | listener.go:34-92 | a level's event with a given message comes from a call exactly when the call is that level's, carries that message, and the level is enabled |
| `Events.AllSeveritiesReportEnabledLevels` | listener_test.go:125-194 | in `AllSeverities` (what `Listener.TenCalls` appends), a level's event with the plain message, and likewise with the formatted one, is present exactly when the level is enabled |
| `Events.ListenerTestCounts` | listener_test.go:70-123 | for the masks all-five, {Debug, Error} and {Debug}, `AllSeverities` (what `Listener.TenCalls` appends) holds 10, 4 and 2 events |
| `Events.ListenerTestPlainMessage` | listener_test.go:163-166 | plugin "plugin1" with the string argument "args" gives the message "plugin1args" |
| `Events.ListenerTestFormattedMessage` | listener_test.go:163-166 | plugin "plugin1" with format "fmt %s" and argument "args" gives "plugin1fmt args" |
| `Events.EmittedCarriesRef` | listener.go:34-38 | every event a severity call forwards carries the emitter's reference |
| `Listener.Listener.constructor` | listener.go:21-28 | `newListener` stores the reference, recorder, mask and id unchanged; they are `const` afterwards |
| `Listener.Listener.Name` | listener.go:30-32 | the name is "k8s_event-" followed by the canonical decimal numeral of the id: digits that denote the id, with no leading zero, and exactly "k8s_event-0" for id 0 |
| `Listener.NameIdentifiesListener` | listener.go:30-32 | two listeners have the same name exactly when they have the same id |
| `Listener.Listener.Debug` | listener.go:34-38 | appends `Emitted(levels, ref, Debug, plugin + Sprint(v))` and changes nothing else |
| `Listener.Listener.Debugf` | listener.go:40-44 | appends `Emitted(levels, ref, Debug, plugin + Sprintf(format, v))` and changes nothing else |
| `Listener.Listener.Info` | listener.go:46-50 | appends the Info event of `plugin + Sprint(v)` when Info is enabled, otherwise nothing |
| `Listener.Listener.Infof` | listener.go:52-56 | appends the Info event of `plugin + Sprintf(format, v)` when Info is enabled, otherwise nothing |
| `Listener.Listener.Warning` | listener.go:58-62 | appends the Warning event of `plugin + Sprint(v)` when Warning is enabled, otherwise nothing |
| `Listener.Listener.Warningf` | listener.go:64-68 | appends the Warning event of `plugin + Sprintf(format, v)` when Warning is enabled, otherwise nothing |
| `Listener.Listener.Error` | listener.go:70-74 | appends the Error event of `plugin + Sprint(v)` when Error is enabled, otherwise nothing |
| `Listener.Listener.Errorf` | listener.go:76-80 | appends the Error event of `plugin + Sprintf(format, v)` when Error is enabled, otherwise nothing |
| `Listener.Listener.Fatal` | listener.go:82-86 | appends the Fatal event of `plugin + Sprint(v)` when Fatal is enabled, otherwise nothing |
| `Listener.Listener.Fatalf` | listener.go:88-92 | appends the Fatal event of `plugin + Sprintf(format, v)` when Fatal is enabled, otherwise nothing |
| `Listener.TenCalls` | listener_test.go:105-117 | the ten calls of the test, in its order, append exactly `AllSeverities(levels, ref, plugin + Sprint(v), plugin + Sprintf(format, v))` to the recorder |
| `Interceptor.Interceptor.constructor` | interceptor.go:16-22 | `NewInterceptor` stores the reference, recorder and mask unchanged; they are `const` afterwards |
| `Interceptor.Interceptor.Debug` | interceptor.go:24-28 | appends the same `Emitted` term as `Listener.Listener.Debug`, so both emitters record identical events |
| `Interceptor.Interceptor.Debugf` | interceptor.go:30-34 | the same event as `Listener.Listener.Debugf` |
| `Interceptor.Interceptor.Info` | interceptor.go:36-40 | the same event as `Listener.Listener.Info` |
| `Interceptor.Interceptor.Infof` | interceptor.go:42-46 | the same event as `Listener.Listener.Infof` |
| `Interceptor.Interceptor.Warning` | interceptor.go:48-52 | the same event as `Listener.Listener.Warning` |
| `Interceptor.Interceptor.Warningf` | interceptor.go:54-58 | the same event as `Listener.Listener.Warningf` |
| `Interceptor.Interceptor.Error` | interceptor.go:60-64 | the same event as `Listener.Listener.Error` |
| `Interceptor.Interceptor.Errorf` | interceptor.go:66-70 | the same event as `Listener.Listener.Errorf` |
| `Interceptor.Interceptor.Fatal` | interceptor.go:72-76 | the same event as `Listener.Listener.Fatal` |
| `Interceptor.Interceptor.Fatalf` | interceptor.go:78-82 | the same event as `Listener.Listener.Fatalf` |
| `Interceptor.TenCalls` | interceptor.go:24-82 | the same ten calls on an interceptor append the same `AllSeverities` sequence as `Listener.TenCalls`, so the two emitters record identical events for the same reference, mask and arguments |
| `K8sEvent.ResolveRef` | k8s_event.go:34-51 | the reference is the Pod `{pod, ns}` exactly when both strings are non-empty, and otherwise Namespace "default" with no namespace |
| `K8sEvent.ResolveRefExamples` | k8s_event_test.go:10-49 | the four environments of the test resolve as the test expects |
| `K8sEvent.K8sEvent.constructor` | setup.go:72-77 | the record holds the given settings and no reference, client, broadcaster or listener |
| `K8sEvent.K8sEvent.Init` | k8s_event.go:34-51 | always succeeds, sets `ref` to the resolved reference and changes no setting |
| `K8sEvent.K8sEvent.Startup` | k8s_event.go:55-83 | a client error is returned with nothing else built; otherwise the broadcaster gets exactly (cacheSize, qps, burst), the listener gets exactly `ref` and `levels` and a fresh "CoreDNS" recorder, and the registration outcome is returned |
| `Setup.EmptyStanzaGivesDefaults` | setup.go:17-27 | an empty block gives levels {Error, Warning}, qps 1/300, burst 25 and cacheSize 4096, all in range |
| `Setup.LevelArgCaseInsensitive` | setup.go:86-87 | an argument names a level exactly when its lower-case form is that level's name |
| `Setup.LevelArgMatchesName` | setup.go:86-87 | without lower-casing: an argument names a level exactly when it has the name's length and each rune is the name's letter in either case, or U+0130 for `i`, or U+212A for `k` |
| `Setup.LevelArgExamples` | setup.go:86-90 | "debug", "DEBUG" and "Warning" are levels; "err" is not |
| `Setup.LevelMaskNamesExactly` | setup.go:85-93 | the accumulated mask enables exactly the named levels and is below 32 |
| `Setup.LevelMaskAcceptsOnlyLevelNames` | setup.go:86-90 | the names are accepted exactly when every one names a level |
| `Setup.LevelMaskErrorPersists` | setup.go:86-90 | the first invalid name decides the error |
| `Setup.LevelDirectiveReplacesMask` | setup.go:80-93 | `level` with no names is an argument-count error; otherwise the new mask is exactly the named levels, whatever the old mask was, and nothing else changes |
| `Setup.NaNPassesQpsCheckAsWritten` | setup.go:105 | the written range test does not reject NaN, though NaN lies in no range |
| `Setup.QpsChecksAgreeExceptNaN` | setup.go:105 | on every value other than NaN the written and the corrected test agree |
| `Setup.RateNaNExample` | setup.go:101-108 | when "NaN" parses to NaN, the check as written (`CheckQpsAsWritten`) accepts it as `Ok(NaN)` and the corrected check answers `QpsOutOfRange(NaN)` |
| `Setup.CheckQps` | setup.go:101-108 | qps is accepted exactly when it parses to a number in [1/3600, 1]; a parse failure gives `BadFloat(arg)`, and a parsed value out of range gives `QpsOutOfRange` of that value |
| `Setup.CheckBurst` | setup.go:114-121 | burst is accepted exactly when it parses to an integer in [1, 256]; a parse failure gives `BadInt(arg)`, and a parsed value out of range gives `BurstOutOfRange` of that value |
| `Setup.CheckCacheSize` | setup.go:127-134 | cacheSize is accepted exactly when it parses to an integer in [1, 65535]; a parse failure gives `BadInt(arg)`, and a parsed value out of range gives `CacheSizeOutOfRange` of that value |
| `Setup.RateArgCount` | setup.go:95-99 | `rate` fails with the argument-count error exactly when it has 0 or more than 3 arguments |
| `Setup.RateSetsPresentFields` | setup.go:101-134 | a successful `rate` sets the present fields to their parsed values and leaves absent fields and the levels unchanged |
| `Setup.RateFirstFailureDecides` | setup.go:101-134 | the first failing argument decides the error, whatever follows it |
| `Setup.UnknownDirectiveRejected` | setup.go:135-136 | a directive other than `level` or `rate` fails as an unknown property |
| `Setup.UnknownDirectiveFailsBlock` | setup.go:78-138 | a block containing an unknown directive anywhere fails |
| `Setup.ApplyDirectiveKeepsRange` | setup.go:78-137 | with the corrected qps test, every successful directive keeps the settings in range (the source also accepts `rate NaN`; see "## Findings") |
| `Setup.ApplyDirectivesKeepsRange` | setup.go:78-139 | with the corrected qps test, a successful sequence of directives keeps the settings in range (the source also accepts `rate NaN`) |
| `Setup.StanzaSettingsInRange` | setup.go:71-140 | with the corrected qps test, every successfully parsed stanza has qps, burst and cacheSize in range and levels below 32 (the source also accepts qps NaN; see "## Findings") |
| `Setup.SetupTestExamples` | setup_test.go:25-67 | the six non-empty blocks of the test give the expected settings or errors (the bare block is `Setup.EmptyStanzaGivesDefaults`) |
| `Setup.ParseAcceptsAtMostOneStanza` | setup.go:51-68 | no stanza gives no settings and no error; a second stanza is an error, and it is the duplicate-stanza error when the first one parsed; an accepted result comes from exactly one stanza and, with the corrected qps test, is in range (the source also accepts `rate NaN`) |
| `Setup.ReadLevels` | setup.go:80-93 | the loop computes exactly the `level` directive's mask or its error |
| `Setup.ApplyRate` | setup.go:94-134 | the in-place updates equal the `rate` directive's result, or the error it gives; qps uses the corrected test, so `rate NaN` gives `QpsOutOfRange(NaN)` where the source stores NaN |
| `Setup.ParseStanza` | setup.go:71-140 | returns a fresh record holding the stanza's settings, or no record and the stanza's error; qps uses the corrected test (NaN refused, unlike the source) |
| `Setup.Parse` | setup.go:51-68 | returns the settings of the only stanza, nothing for no stanza, or the first error; qps uses the corrected test (NaN refused, unlike the source) |

## Findings

| source | as written | input that shows it | evidently intended | confidence | as-written member | corrected member |
|---|---|---|---|---|---|---|
| setup.go:105 | `qps < minRateQPS \|\| qps > maxRateQPS` rejects only values that compare below or above the bounds. Every comparison with NaN is false, so NaN passes. | `rate NaN`: `strconv.ParseFloat` accepts "NaN" without error, and qps is then stored as NaN | qps must be a number in [1/3600, 1] | medium, not executed | `Setup.NaNPassesQpsCheckAsWritten` | `Setup.CheckQps` |

The rest of the model uses the corrected test (`Setup.QpsInRange`). That is how
`Setup.StanzaSettingsInRange` holds for every parsed stanza.

## Left out

- Caddy tokenisation and plugin registration (setup.go:32-49) are not modelled. The input is a list of stanzas, each a list of (directive, arguments).
- `Shutdown` (k8s_event.go:86-95) is not modelled. It only calls the broadcaster's `Shutdown` and the log package's `DeregisterListener`, both external.
- The broadcaster is not modelled: correlation, LRU dedup, token-bucket rate limiting, `StartRecordingToSink` and asynchronous delivery. It is known only by the options it is built with. The recorder it returns is modelled as a fresh in-memory recorder.
- Float precision is not modelled. qps is a `real`, so the `float32` narrowing and float equality in the tests are absent.
- The digit-level behaviour of `strconv.ParseFloat` and `strconv.Atoi` is not modelled; both are given as functions.
- Error texts (`%f`/`%d` in the range errors, `plugin.Error` wrapping) are not modelled. Errors are a datatype that carries the offending value.
- `fmt.Sprintf` is modelled only for one-letter verbs, `%%`, missing operands and a trailing `%`. Flags, widths, precisions, `%!(EXTRA …)` and per-verb rendering are not modelled; an operand's rendering is its `text`.
- `Events.Recorder.Eventf`: stores the message unexpanded. The mock recorder of listener_test.go:32 and a real recorder both pass it through `fmt.Sprintf` again, so a `%` in a logged message would be re-expanded there.
- `Setup.ApplyRate`, `Setup.ParseStanza`, `Setup.Parse`, `Setup.StanzaSettingsInRange`, `Setup.ApplyDirectiveKeepsRange`, `Setup.ApplyDirectivesKeepsRange`, `Setup.ParseAcceptsAtMostOneStanza`: these use the corrected qps range test. On `rate NaN` they return `QpsOutOfRange(NaN)`, where the source stores NaN and succeeds (see "## Findings"; the as-written check is `Setup.CheckQpsAsWritten`).
- `GoText.ToLower`: maps A–Z and the two non-ASCII runes that Go lowers into ASCII (U+0130, U+212A). Other Unicode case mappings are not modelled. They only change the text of an `InvalidLevel` error.
- The warning logged by `Init` when the environment is incomplete is not modelled. It is a local log line.
- `os.Getenv`, `rn.Int()`, `kubeapi.Client`, `plog.RegisterListener` and `dnsserver.GetConfig` are parameters or left out. They are process-global state and I/O.
- Concurrency is not modelled. The emitters are read-only after construction.
