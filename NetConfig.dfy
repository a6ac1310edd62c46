/** The global configuration object `NetConfig`.

    The registry is a class whose fields are replaced wholesale. The HTTP
    client library is outside the model: builders and clients are symbolic
    terms that record which calls were made, not object identity: the
    library's baseline step `toNetOkhttp` is recorded as `NetBaseline` on a
    builder and `NetWrapped` on a client. Whether applying it to a client that
    already has the baseline returns that same client is not modelled.

    The two deprecated default hooks `onError` and `onStateError` only read
    the configuration; they are methods that return the effects they issue. */
module Config {
  import opened Failures
  import opened Classifier

  /** A client configuration lambda, by identity; `NoConfig` is the default `{}`. */
  datatype ConfigStep = NoConfig | Step(id: nat)

  datatype Builder =
    | NewBuilder                                 // OkHttpClient.Builder()
    | Configured(step: nat, base: Builder)       // after running a config lambda
    | CallerBuilder(id: nat)                     // a builder handed in by the caller
    | NetBaseline(base: Builder)                 // Builder.toNetOkhttp()

  datatype Client =
    | Built(builder: Builder)                    // Builder.build()
    | CallerClient(id: nat)                      // a client handed in by the caller
    | NetWrapped(inner: Client)                  // OkHttpClient.toNetOkhttp()

  datatype Application = Application(id: nat)
  datatype Interceptor = Interceptor(id: nat)
  datatype Converter = DefaultConverter | CustomConverter(id: nat)
  datatype ErrorHandler = DefaultErrorHandler | CustomErrorHandler(id: nat)
  datatype DialogFactory = DefaultDialogFactory | CustomDialogFactory(id: nat)
  /** The view the state-error hook is given; the default hook ignores it. */
  datatype View = View(id: nat)

  /** Effects the default hooks issue. */
  datatype Effect =
    | PrintStackTrace(failure: Throwable)
    | Toast(message: Message)
    | HandlerOnError(handler: ErrorHandler, failure: Throwable)

  /** How a hook call ends: normally with its effects, or by throwing
      because the `lateinit` application context was never set. */
  datatype HookOutcome = Done(effects: seq<Effect>) | UninitializedApp

  /** Running a configuration lambda on a builder; the empty lambda changes nothing. */
  function ApplyConfig(step: ConfigStep, b: Builder): Builder {
    match step
    case NoConfig => b
    case Step(id) => Configured(id, b)
  }

  /** A client carrying the library's baseline behaviour: wrapped as a client,
      or built from a builder the baseline was applied to. */
  predicate HasBaseline(c: Client) {
    c.NetWrapped? || (c.Built? && c.builder.NetBaseline?)
  }

  /** The classes whose failures the default state-error hook forwards. */
  predicate ForwardedToHandler(t: Throwable) {
    ConvertException in t.tags || RequestParamsException in t.tags ||
    ResponseException in t.tags || NullPointerException in t.tags
  }

  function CountToasts(effects: seq<Effect>): (n: nat)
    ensures n <= |effects|
    ensures n == 0 <==> forall k :: 0 <= k < |effects| ==> !effects[k].Toast?
  {
    if effects == [] then 0
    else (if effects[0].Toast? then 1 else 0) + CountToasts(effects[1..])
  }

  class NetConfig {
    var app: Option<Application>
    var okHttpClient: Client
    var host: string
    var logEnabled: bool
    var requestInterceptor: Option<Interceptor>
    var converter: Converter
    var errorHandler: ErrorHandler
    var dialogFactory: DialogFactory

    /** The stored client always carries the baseline behaviour. In Kotlin every
        write to `okHttpClient` passes the custom setter; here the field is a
        plain `var`, so the invariant holds for writes made through the
        constructor, `SetOkHttpClient`, `Init` and `InitWithBuilder`. */
    ghost predicate Valid()
      reads this
    {
      HasBaseline(okHttpClient)
    }

    /** The field initialisers. The initial client is built from a fresh
        builder with the baseline applied; it does not pass the setter. */
    constructor ()
      ensures Valid()
      ensures app == None
      ensures okHttpClient == Built(NetBaseline(NewBuilder))
      ensures host == "" && logEnabled && requestInterceptor == None
      ensures converter == DefaultConverter && errorHandler == DefaultErrorHandler
      ensures dialogFactory == DefaultDialogFactory
    {
      app := None;
      okHttpClient := Built(NetBaseline(NewBuilder));
      host := "";
      logEnabled := true;
      requestInterceptor := None;
      converter := DefaultConverter;
      errorHandler := DefaultErrorHandler;
      dialogFactory := DefaultDialogFactory;
    }

    /** The `okHttpClient` setter: what is stored is the result of applying
        the baseline to the given client. */
    method SetOkHttpClient(value: Client)
      modifies this`okHttpClient
      ensures Valid()
      ensures okHttpClient == NetWrapped(value)
      ensures host == old(host)
      ensures app == old(app) && logEnabled == old(logEnabled)
      ensures requestInterceptor == old(requestInterceptor) && converter == old(converter)
      ensures errorHandler == old(errorHandler) && dialogFactory == old(dialogFactory)
    {
      okHttpClient := NetWrapped(value);
    }

    /** `init(host, config)` with a configuration lambda: sets the host and
        replaces the client, through the setter, by a build of a fresh
        builder that ran the lambda and got the baseline. */
    method Init(host: string, config: ConfigStep)
      modifies this`host, this`okHttpClient
      ensures Valid()
      ensures this.host == host
      ensures okHttpClient == NetWrapped(Built(NetBaseline(ApplyConfig(config, NewBuilder))))
      ensures app == old(app) && logEnabled == old(logEnabled)
      ensures requestInterceptor == old(requestInterceptor) && converter == old(converter)
      ensures errorHandler == old(errorHandler) && dialogFactory == old(dialogFactory)
    {
      this.host := host;
      var builder := ApplyConfig(config, NewBuilder);
      SetOkHttpClient(Built(NetBaseline(builder)));
    }

    /** `init(host, config)` with a caller-supplied builder: the same, built
        from that builder. */
    method InitWithBuilder(host: string, config: Builder)
      modifies this`host, this`okHttpClient
      ensures Valid()
      ensures this.host == host
      ensures okHttpClient == NetWrapped(Built(NetBaseline(config)))
      ensures app == old(app) && logEnabled == old(logEnabled)
      ensures requestInterceptor == old(requestInterceptor) && converter == old(converter)
      ensures errorHandler == old(errorHandler) && dialogFactory == old(dialogFactory)
    {
      this.host := host;
      SetOkHttpClient(Built(NetBaseline(config)));
    }

    /** The default `onError` hook: picks the message by the classification
        chain, prints the stack trace only when logging is on, then toasts the
        message once. Looking a message up in the string resources throws
        when the application context was never set; the response-message
        branch looks nothing up. */
    method OnError(t: Throwable) returns (outcome: HookOutcome)
      ensures outcome.UninitializedApp? <==> app.None? && NeedsResource(SelectMessage(t))
      ensures outcome.Done? ==> CountToasts(outcome.effects) == 1
      ensures outcome.Done? ==>
                |outcome.effects| > 0 && outcome.effects[|outcome.effects| - 1] == Toast(SelectMessage(t))
      ensures outcome.Done? ==> (PrintStackTrace(t) in outcome.effects <==> logEnabled)
      ensures outcome.Done? ==> forall e :: e in outcome.effects ==> !e.HandlerOnError?
      ensures outcome.Done? ==> |outcome.effects| == (if logEnabled then 2 else 1)
      ensures outcome.Done? ==>
                forall e :: e in outcome.effects ==> e == PrintStackTrace(t) || e == Toast(SelectMessage(t))
    {
      var message := SelectMessage(t);
      if app.None? && NeedsResource(message) {
        return UninitializedApp;
      }
      var effects := [];
      if logEnabled {
        effects := effects + [PrintStackTrace(t)];
      }
      effects := effects + [Toast(message)];
      return Done(effects);
    }

    /** The default `onStateError` hook: failures of the four whitelisted
        classes go to the error handler's `onError`; any other failure only
        has its stack trace printed, and only when logging is on. */
    method OnStateError(t: Throwable, view: View) returns (effects: seq<Effect>)
      ensures ForwardedToHandler(t) ==> effects == [HandlerOnError(errorHandler, t)]
      ensures !ForwardedToHandler(t) ==>
                forall e :: e in effects ==> !e.HandlerOnError? && !e.Toast?
      ensures !ForwardedToHandler(t) ==> (effects != [] <==> logEnabled)
      ensures !ForwardedToHandler(t) && logEnabled ==> effects == [PrintStackTrace(t)]
    {
      if ForwardedToHandler(t) {
        effects := [HandlerOnError(errorHandler, t)];
      } else if logEnabled {
        effects := [PrintStackTrace(t)];
      } else {
        effects := [];
      }
    }
  }
}
