# papi-stats, modelled in Dafny

papi-stats is a plugin for the papi HTTP client. It reports one timing
metric for every attempt of every named request, and a `retry` counter when
an attempt was a retry. The plugin's logic lives in `lib/index.js`, and this
project models all of it:

- `escape` turns a client or operation label into a metric-name component.
  It applies three regular-expression replacements and keeps results in a
  memo table (`cache`) for the whole process.
- `register` checks the `count` and `timing` sink options. It then installs
  two hooks:
  - `onRequest` runs before each attempt and drives the per-call state
    `ctx.state.stats`;
  - `onResponse` runs after each attempt and calls the sinks.

Modules:

| file | module | contents |
|---|---|---|
| `wrappers.dfy` | `Wrappers` | `Option`, `Result` |
| `sanitizer.dfy` | `Sanitizer` | the three replacements as functions (`Sanitize`); an independent one-pass scanner (`Normalize`) proved equal to it; the shape, idempotence and fixed points of the transform |
| `decimal.dfy` | `Decimal` | the decimal rendering of a status code, proved injective by a round trip |
| `escape_cache.dfy` | `EscapeCache` | `escape` as a method of the class `NameCache`, whose `entries` map is the memo table; the plain-object lookup as written (see Findings) |
| `hooks.dfy` | `Hooks` | the per-call state machine as functions (`RequestStep`, `ResponseMetrics`) and a whole call as a replay of hook events (`Replay`), with lemmas |
| `plugin.dfy` | `Plugin` | `Register`, the class `Tracker` with the hooks `OnRequest`/`OnResponse`, and the class `CallContext` |
| `scenarios.dfy` | `Scenarios` | the host driving the hooks (`RunCall`), and the calls of `test/stats.js` worked through on the model |

Modelling choices:

- A label is `Option<string>`. `None` is an absent name (`undefined`).
- The clock (`+new Date()`) is a `nat` argument to each hook.
- The two sinks are one log, `Tracker.emitted`. It holds the calls made to
  them, in order.
- The module-level cache is a `NameCache` object passed to `Register`.
  Registrations may share it, as they all do in the source; since every
  entry is the transform of its key, sharing changes no result.
- `ctx.state.stats` has three states: `Unset` (no own property), `Untracked`
  (`null`) and `Tracked(name, time, retry)`.

## Model

| member | source | states |
|---|---|---|
| Sanitizer.SanitizeMatchesNormalize | lib/index.js:15-18 | the three chained replacements equal a one-pass scan that writes the maximal runs of `[a-zA-Z0-9-]` joined by single `_` |
| Sanitizer.SanitizeIsMetricName | lib/index.js:15-18 | the result contains only `[a-zA-Z0-9_-]`, has no `__`, and neither starts nor ends with `_` |
| Sanitizer.SanitizeKeepsWordChars | lib/index.js:15-18 | every letter, digit and `-` of the input survives, in order, and no other such character appears |
| Sanitizer.SanitizeEmptyIff | lib/index.js:15-18 | the result is empty exactly when the input has no letter, digit or `-` |
| Sanitizer.SanitizeFixedPoints | lib/index.js:15-18 | the transform leaves a string unchanged exactly when it is already a metric name |
| Sanitizer.SanitizeIdempotent | lib/index.js:15-18 | escaping an escaped name changes nothing |
| Sanitizer.ScanWordRun | lib/index.js:15-18 | a run of word characters is copied whole, after the one `_` owed for the separators before it |
| Sanitizer.TwoWords | lib/index.js:15-18 | two words around one unsafe character come out joined by a single `_` |
| Sanitizer.SanitizeHelloWorld | test/stats.js:86 | `hello!world` escapes to `hello_world` |
| Sanitizer.SanitizeExampleOrg | test/stats.js:59 | `example.org` escapes to `example_org` |
| Sanitizer.SanitizeTest | test/stats.js:72 | `test` escapes to itself |
| Sanitizer.SanitizeBangs | test/stats.js:166 | `!!!` escapes to the empty string |
| Decimal.DecimalString | lib/index.js:77 | a status code renders as a non-empty string of digits |
| Decimal.DecimalRoundTrip | lib/index.js:82 | reading the rendered status code back gives the code |
| Decimal.DecimalStringInjective | lib/index.js:82 | two status codes render the same exactly when they are equal |
| EscapeCache.EscapedFalsy | lib/index.js:10 | a falsy label (absent or empty) comes back unchanged |
| EscapeCache.EscapedFalsyIff | lib/index.js:9-18 | `escape` returns a falsy value exactly when the label is absent or has no letter, digit or `-` |
| EscapeCache.EscapedIdempotent | lib/index.js:9-18 | escaping twice is escaping once |
| EscapeCache.RememberGrows | lib/index.js:12-22 | one `escape` keeps every entry equal to the transform of its key, keeps all old entries, and adds at most the label; a falsy label writes nothing |
| EscapeCache.NameCache.constructor | lib/index.js:7 | the cache starts empty |
| EscapeCache.NameCache.Escape | lib/index.js:9-24 | returns the transform of the label (the label itself when falsy), hit or miss; the table afterwards is the old table with the label's entry written, unless the label is falsy; the table stays sound |
| EscapeCache.PlainObjectAgreesIff | lib/index.js:7-14 | with `cache` a plain object, `escape` returns the transform exactly when the label has an own entry or is not an inherited `Object.prototype` member |
| EscapeCache.PlainObjectToString | lib/index.js:7-14 | with `cache` a plain object, `escape("toString")` on an empty cache returns the inherited function, not `toString` |
| Hooks.FirstRequest | lib/index.js:43-59 | the first `onRequest` makes the call untracked exactly when either label is absent or has no letter, digit or `-`; otherwise it is tracked as `client + "." + op` of the escaped labels, timed from now, not a retry |
| Hooks.LaterRequest | lib/index.js:60-63 | a later `onRequest` leaves an untracked call untracked; a tracked call keeps its name, restarts its timer and is marked a retry |
| Hooks.CallNameShape | lib/index.js:57 | a call's metric name is two metric names joined by its only `.` |
| Hooks.CallNameInjective | lib/index.js:57 | two calls share a metric name exactly when both escaped labels agree |
| Hooks.SuffixIsNotAWord | lib/index.js:76-80 | a status-code suffix is never `timeout`, `error` or `retry` |
| Hooks.SuffixInjective | lib/index.js:76-85 | different outcomes give different timing names, and none is the retry counter's |
| Hooks.ResponseEmits | lib/index.js:73-86 | `onResponse` on a tracked call sends one timing named after the outcome and valued at the time since the attempt started, then `name.retry` with 1 exactly when the call is a retry; in any other state it sends nothing |
| Hooks.UntrackedStaysSilent | lib/index.js:60-73 | an untracked call stays untracked and sends nothing, whatever happens next |
| Hooks.UntrackableCallIsSilent | lib/index.js:43-54 | a call whose labels do not both survive escaping sends nothing, retries included, and its state is set exactly when some attempt started |
| Hooks.TrackedCallState | lib/index.js:56-63 | a tracked call stays tracked under the same name, and ends a retry exactly when it was one or another attempt started |
| Hooks.TrackedCallTimings | lib/index.js:82 | a tracked call sends exactly one timing per completed attempt |
| Hooks.TrackedCallNames | lib/index.js:82-85 | every metric a tracked call sends is named `<call name>.<suffix>` |
| Plugin.OptionsErrorCases | lib/index.js:34-39 | registration fails exactly when a sink is not a function, naming `count` first when both are missing |
| Plugin.Register | lib/index.js:30-39 | fails exactly when the options are rejected, with that error; otherwise returns fresh hooks over the shared cache with nothing sent |
| Plugin.CallContext.constructor | lib/index.js:43 | a new call has no `stats` yet |
| Plugin.Tracker.constructor | lib/index.js:41-93 | the hooks start with nothing sent, over a sound cache |
| Plugin.Tracker.OnRequest | lib/index.js:41-69 | the call's new state is `RequestStep` of the old one; only the first attempt writes the cache, once for each label |
| Plugin.Tracker.OnResponse | lib/index.js:71-93 | appends exactly `ResponseMetrics` of the call's state to what was sent, and leaves the call's state alone |
| Scenarios.RunCall | lib/index.js:41-93 | running the hooks over a call's events sends what `Replay` says and leaves the state it names |
| Scenarios.ExampleOrgTestName | test/stats.js:179-197 | client `example.org` with operation `test` is tracked as `example_org.test` |
| Scenarios.ExampleOrgHelloWorldName | test/stats.js:281-309 | client `example.org` with operation `hello!world` is tracked as `example_org.hello_world` |
| Scenarios.SingleAttempt | lib/index.js:41-93 | one attempt of a trackable call sends one timing, `<call name>.<suffix>`, valued at the elapsed time |
| Scenarios.SingleAttemptExamples | test/stats.js:179-279 | one attempt of `test` sends `example_org.test.201`, `.500`, `.timeout` or `.error` |
| Scenarios.RetriedCall | lib/index.js:41-93 | a retried call sends both timings, each from its own attempt, then the retry counter |
| Scenarios.RetriedCallExample | test/stats.js:311-336 | `hello!world` answered 500, retried, answered 404 sends `.500`, `.404`, then `.retry` with 1 |
| Scenarios.RetriedCallOnHooks | test/stats.js:311-336 | the same call driven through `Register` and the hook methods sends the same three metrics |
| Scenarios.UnnamedCallsAreSilent | test/stats.js:131-177 | an absent client name, an absent operation name, or the client name `!!!` sends nothing, whatever the attempts |
| Scenarios.UnnamedRetriesAreSilent | test/stats.js:338-353 | an absent client name with the operation `hello!world` sends nothing, retries included |
| Scenarios.RegisterWithoutSinks | test/stats.js:112-127 | no sinks fails with `count is required`; only `count` fails with `timing is required` |

## Left out

- The papi client and its plumbing are host code the model cannot see: `_ext`, `ctx._client._opts`, `next()` and `debug`. Both hooks always call `next()`, so a hook never stops the call.
- `register.attributes`, which reads `package.json`, and the `_cache` export are not part of this model.
- Real time: each hook takes the clock reading as a `nat` argument.
- The `try`/`catch` around each hook body (lib/index.js:42, 64-66, 72, 88-90). The model covers only well-typed inputs: labels that are strings or absent, and a numeric status code. It also assumes that the `count` and `timing` sinks return normally.
- Plugin.Tracker.OnResponse: always logs both metrics of a retried call. In the source, a `timing` sink that throws at lib/index.js:82 jumps to the catch at lib/index.js:88-90, so `count(name + '.retry', 1)` at lib/index.js:85 is never called. Sink faults are host code the model cannot see.
- A response without a `statusCode`, which JavaScript would render as `undefined`, is not modelled.
- Labels of other types (a number or an object as a name) are not modelled. On such values `replace` throws and the fault is swallowed.
- The `group` option with `2xx`-style suffixes, and an `abort` outcome. `lib/index.js` implements neither, so the model follows the code. `test/stats.js:199-221` expects `example_org.test.2xx` and does not hold of this code.
- Only one call's state is modelled at a time. Concurrent calls share only the cache, and each `escape` keeps the cache sound.
- JavaScript strings are UTF-16 code units; the model uses Unicode scalar values. For this transform the results agree: every code unit of a surrogate pair is unsafe, so the pair becomes one `_` after the collapse step.

## Findings

| source | as written | input that shows it | evidently intended | confidence | as-written member | corrected member |
|---|---|---|---|---|---|---|
| lib/index.js:7-14 | `cache` is a plain object `{}`, so `cache[value]` also finds members inherited from `Object.prototype`; they are truthy functions, so `escape` returns them instead of a string | the label `toString` on an empty cache: `escape` returns `Object.prototype.toString`, and the metric name becomes that function's source text | `escape("toString")` is `toString`, as with a `Map` or `Object.create(null)` | not executed | EscapeCache.PlainObjectToString | EscapeCache.NameCache.Escape |
