# Net: failure classification, configuration registry and state-layout callback

A Dafny model of two pieces of the Android HTTP library Net
(`com.drake.net`):

- `NetConfig`, the process-wide configuration object: the shared OkHttp
  client with its setter that always re-applies the library's baseline
  (`toNetOkhttp`), the default host, the logging switch, the request
  interceptor, converter, error handler and dialog factory, the two `init`
  overloads, and the two deprecated default hooks: `onError`, which picks
  a user-facing message for a failure by an ordered first-match `when`
  chain, logs and toasts it, and `onStateError`, which forwards a
  whitelist of failure classes to the error handler.
- `StateCallback`, a request callback bound to a `StateLayout`: it shows
  the error state on failure, hands errors to the handler's state-aware
  hook, shows the content on a clean or cancelled completion, and
  registers a listener that cancels the request's whole group when the
  layout is detached from its window.

Files:

- `Failures.dfy` (module `Failures`): a thrown failure as the set of
  exception classes it is an instance of, plus its optional message. An
  `is X` test is `X in tags`; no subclass relation is assumed.
- `Classifier.dfy` (module `Classifier`): the message categories, the
  `when` chain as written (`SelectMessage`), and beside it the chain read
  as an ordered rule list (`ClauseOrder`, `ClauseMessage`, `FirstMatch`,
  `ByRules`). The chain is proved equal to the rule list. Totality,
  first-match-wins and the irrelevance of later tags are derived from that.
- `NetConfig.dfy` (module `Config`): the `NetConfig` class and its default
  hooks. Builders and clients are symbolic terms that record which calls
  were made, not object identity. A call of `toNetOkhttp` is recorded as
  `NetBaseline` on a builder and `NetWrapped` on a client. The model
  assumes nothing about what the baseline does.
- `StateCallback.dfy` (module `StateCallbacks`): the `StateCallback` class
  with a ghost trace of the effects it issues. There is one function per
  hook giving that hook's effects, and lemmas about whole call lifecycles.

Notes on what the code does:

- `init` stores its new client through the `okHttpClient` setter. The
  setter applies `toNetOkhttp` again, so a client stored by `init` has had
  the baseline applied twice: once to the builder and once to the built
  client. The field initialiser bypasses the setter, so the initial client
  has it once. Reading the client back after setting it gives the result
  of `toNetOkhttp` applied to the value that was set. Whether that result
  can be the same object is up to `toNetOkhttp`, which is not part of this
  model.
- `app` is `lateinit`. The default `onError` looks every message up in
  the string resources except the `ResponseException` message. With no
  application set, that lookup throws before anything is logged or
  toasted (`HookOutcome.UninitializedApp`).
- The listener registered by `onStart` is never removed. Each `onStart`
  adds another one, and each detach cancels the group again.

## Model

| member | source | states |
|---|---|---|
| `Classifier.SelectMessage` | net/src/main/java/com/drake/net/NetConfig.kt:87-104 | the `when` chain clause by clause; the timeout and `ResponseException` categories carry the failure's own message. Its full characterisation is `SelectMessageFollowsRules` and the lemmas below |
| `Classifier.FirstMatch` | net/src/main/java/com/drake/net/NetConfig.kt:87-104 | the first-match search over an ordered list of classes returns the position of a matching class with no matching class before it, and finds nothing exactly when no class in the list matches |
| `Classifier.SelectMessageFollowsRules` | net/src/main/java/com/drake/net/NetConfig.kt:87-104 | the `when` chain as written equals the first-match reading of the ordered rule list: the catch-all when no clause matches, otherwise the category of the first clause that matches |
| `Classifier.OtherErrorIffNoClauseMatches` | net/src/main/java/com/drake/net/NetConfig.kt:87-104 | every failure gets exactly one category, and it is the "other error" catch-all if and only if none of the twelve tested classes is among its classes |
| `Classifier.ClauseChosenIffFires` | net/src/main/java/com/drake/net/NetConfig.kt:88-102 | clause i's category is the message if and only if class i is among the failure's classes and no earlier clause's class is (first match wins in written order) |
| `Classifier.HostErrorWins` | net/src/main/java/com/drake/net/NetConfig.kt:88 | an `UnknownHostException` gets the host-error message, whatever later classes (e.g. `NetConnectException`) it also belongs to |
| `Classifier.TimeoutCarriesOwnMessage` | net/src/main/java/com/drake/net/NetConfig.kt:91-94 | the connect-timeout category is chosen exactly when the `NetSocketTimeoutException` clause fires, and it carries the failure's own message |
| `Classifier.ResponseMessageVerbatim` | net/src/main/java/com/drake/net/NetConfig.kt:101 | the `ResponseException` clause yields the failure's own message verbatim, possibly absent; it is the one category that needs no resource lookup |
| `Classifier.NetErrorOnlyAsFallback` | net/src/main/java/com/drake/net/NetConfig.kt:102 | the generic `NetException` message is chosen if and only if the failure is a `NetException` and none of the eleven earlier classes matched |
| `Classifier.LaterTagIrrelevant` | net/src/main/java/com/drake/net/NetConfig.kt:87-104 | adding a class that is not tested before the firing clause never changes the message |
| `Classifier.UntestedTagIrrelevant` | net/src/main/java/com/drake/net/NetConfig.kt:103 | adding a class that no clause tests never changes the message |
| `Config.NetConfig.constructor` | net/src/main/java/com/drake/net/NetConfig.kt:63-75 | the field defaults: no application, a client built from a fresh builder with the baseline applied, host `""`, logging on, no request interceptor, the default converter, error handler and dialog factory |
| `Config.NetConfig.SetOkHttpClient` | net/src/main/java/com/drake/net/NetConfig.kt:64-67 | the setter stores the result of applying the baseline (`toNetOkhttp`) to the new client; the stored client keeps the baseline; no other field changes |
| `Config.NetConfig.Init` | net/src/main/java/com/drake/net/NetConfig.kt:129-134 | `init(host, config)` sets the host and, through the setter, stores a build of a fresh builder that ran the configuration lambda and got the baseline; the other fields are unchanged |
| `Config.NetConfig.InitWithBuilder` | net/src/main/java/com/drake/net/NetConfig.kt:136-139 | `init(host, builder)` sets the host and, through the setter, stores a build of the caller's builder with the baseline; the other fields are unchanged |
| `Config.NetConfig.OnError` | net/src/main/java/com/drake/net/NetConfig.kt:85-108 | the default error hook throws exactly when the application is unset and the chosen message needs a resource lookup; otherwise it prints the stack trace if and only if logging is on, toasts the chosen message exactly once as its last effect, and issues nothing else: one stack trace of this failure then the toast with logging on, the toast alone with logging off |
| `Config.NetConfig.OnStateError` | net/src/main/java/com/drake/net/NetConfig.kt:112-120 | the default state-error hook forwards to the error handler's `onError` exactly when the failure is a `ConvertException`, `RequestParamsException`, `ResponseException` or `NullPointerException`; otherwise it never forwards or toasts, and prints the stack trace if and only if logging is on |
| `StateCallbacks.StartEffects` | net/src/main/java/com/drake/net/callback/StateCallback.kt:21-31 | `onStart` runs the base `onStart` first, then registers exactly one attach-state listener on the bound layout for the request's group |
| `StateCallbacks.ListenerEffects` | net/src/main/java/com/drake/net/callback/StateCallback.kt:23-30 | the listener does nothing when the view is attached; when it is detached it issues a single cancellation of its group |
| `StateCallbacks.FailureEffects` | net/src/main/java/com/drake/net/callback/StateCallback.kt:33-36 | `onFailure` shows the error state with the same failure, then runs the base `onFailure`: exactly one of each, in that order |
| `StateCallbacks.ErrorEffects` | net/src/main/java/com/drake/net/callback/StateCallback.kt:38-40 | `onError` never runs the base hook; its single effect is the error handler's `onStateError` with the failure and the bound layout |
| `StateCallbacks.CompleteEffects` | net/src/main/java/com/drake/net/callback/StateCallback.kt:42-45 | `onComplete` runs the base completion first; it shows the content (at most once) if and only if there was no error or a `CancellationException`; for any other error the base completion is its only effect |
| `StateCallbacks.StateCallback.constructor` | net/src/main/java/com/drake/net/callback/StateCallback.kt:19 | the callback is bound to the given layout and configuration and has issued nothing |
| `StateCallbacks.StateCallback.OnStart` | net/src/main/java/com/drake/net/callback/StateCallback.kt:21-31 | the trace grows by exactly the `onStart` effects |
| `StateCallbacks.StateCallback.OnAttachStateChange` | net/src/main/java/com/drake/net/callback/StateCallback.kt:24-29 | a registered listener receiving an attach-state change appends exactly its effects to the trace |
| `StateCallbacks.StateCallback.OnFailure` | net/src/main/java/com/drake/net/callback/StateCallback.kt:33-36 | the trace grows by exactly the `onFailure` effects |
| `StateCallbacks.StateCallback.OnError` | net/src/main/java/com/drake/net/callback/StateCallback.kt:38-40 | the trace grows by exactly the `onError` effects, using the error handler configured when the hook runs |
| `StateCallbacks.StateCallback.OnComplete` | net/src/main/java/com/drake/net/callback/StateCallback.kt:42-45 | the trace grows by exactly the `onComplete` effects |
| `StateCallbacks.DetachCancelsRequestGroup` | net/src/main/java/com/drake/net/callback/StateCallback.kt:21-30 | the listener `onStart` registers cancels the request's whole group (`cancelGroup(request.group)`) on a detach, and does nothing on an attach |
| `StateCallbacks.FailedCallNeverShowsContent` | net/src/main/java/com/drake/net/callback/StateCallback.kt:21-45 | a call run through start, failure, error and completion with a failure that is not a cancellation shows the error, never shows the content, and ends with the base completion |
| `StateCallbacks.SucceededCallEndsWithContent` | net/src/main/java/com/drake/net/callback/StateCallback.kt:21-45 | a call that starts and completes without error ends by showing the content and never shows an error |

## Left out

- `runningCalls` and `Net.cancelGroup`: the queue of weak call references is only declared in `NetConfig`. The walk that cancels a group and prunes dead references is in `Net`, which is not part of this model. Group cancellation appears only as the `CancelGroup` effect.
- OkHttp client construction and `toNetOkhttp`: these belong to a foreign library. They are symbolic terms, and the model does not know what the baseline adds or whether applying it twice matters.
- String resources (`app.getString`), `TipUtils.toast` and `printStackTrace`: I/O and UI. They are represented by message categories and effect values. No text is formatted. The `Toast` effect stands for the call to `TipUtils.toast`, not for what that function then does. `TipUtils` is not part of this model, so the model does not capture it throwing or returning early, for example on an absent message.
- The deprecated `onDialog` factory: it only builds a `ProgressDialog`.
- Reassigning the deprecated `onError` / `onStateError` hook variables to other lambdas: only the default hook bodies are modelled.
- The base `NetCallback` hooks and the error handler's own `onError` / `onStateError`: these are not part of this model. The callback's calls to them appear as effects.
- `StateLayout` rendering and Android's listener dispatch: UI framework. Only the attach/detach events and the listener's reaction are modelled.
- Writes to `okHttpClient` that bypass the setter: in Kotlin every write passes the custom setter, but here the field is a plain `var`. The baseline invariant `Valid()` holds only for writes made through the constructor, `SetOkHttpClient`, `Init` and `InitWithBuilder`.
- Thread safety of the configuration fields: concurrency is not modelled. Every setter replaces its field in one step.
- Once-only completion: `StateCallback.onComplete` has no guard against a repeated completion signal, so the model has none either. A second signal appends its effects again. Any deduplication in the base callback is not part of this model.
