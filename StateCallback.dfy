/** `StateCallback`: a request callback bound to a state layout.

    Every hook works only by issuing effects on other objects: the base
    callback's hook, the layout's `showError`/`showContent`, the error
    handler's state-aware hook, and the registration of a listener on the
    layout that cancels the request's whole group when the layout is
    detached from its window. The class records those effects, in order, in
    a ghost trace; each hook's contribution is a function of its arguments,
    and the properties of the hooks are stated about those functions. */
module StateCallbacks {
  import opened Failures
  import Config

  /** The tag a request is grouped under (`request.group`). */
  datatype GroupTag = GroupTag(id: nat)
  datatype Request = Request(id: nat, group: GroupTag)
  datatype Call = Call(id: nat)
  /** The layout the callback is bound to, by identity. */
  datatype StateLayout = StateLayout(id: nat)

  datatype AttachEvent = ViewAttached | ViewDetached

  /** The attach-state listener `onStart` registers: it remembers the group
      of the request it was registered for. */
  datatype AttachListener = CancelGroupOnDetach(group: GroupTag)

  datatype Effect =
    | SuperOnStart(request: Request)
    | AddAttachListener(layout: StateLayout, listener: AttachListener)
    | ShowError(layout: StateLayout, error: Throwable)
    | SuperOnFailure(call: Call, error: Throwable)
    | SuperOnError(call: Call, error: Throwable)
    | HandlerOnStateError(handler: Config.ErrorHandler, error: Throwable, layout: StateLayout)
    | SuperOnComplete(call: Call, outcome: Option<Throwable>)
    | ShowContent(layout: StateLayout)
    | CancelGroup(group: GroupTag)

  /** `onComplete` shows the content for a clean finish or a cancellation. */
  predicate ShowsContent(e: Option<Throwable>) {
    e.None? || CancellationException in e.value.tags
  }

  function Count(effects: seq<Effect>, x: Effect): (n: nat)
    ensures n <= |effects|
    ensures n == 0 <==> x !in effects
  {
    if effects == [] then 0
    else (if effects[0] == x then 1 else 0) + Count(effects[1..], x)
  }

  /** The effects of `onStart(request)`: the base hook first, then one
      listener registered on the layout for the request's group. */
  function StartEffects(layout: StateLayout, request: Request): (r: seq<Effect>)
    ensures |r| == 2 && r[0] == SuperOnStart(request)
    ensures r[1].AddAttachListener? && r[1].layout == layout
    ensures r[1].listener.group == request.group
  {
    [SuperOnStart(request), AddAttachListener(layout, CancelGroupOnDetach(request.group))]
  }

  /** What the registered listener does on an attach-state change: a
      detach cancels the remembered group, an attach does nothing. */
  function ListenerEffects(listener: AttachListener, event: AttachEvent): (r: seq<Effect>)
    ensures event == ViewAttached ==> r == []
    ensures event == ViewDetached ==> |r| == 1 && r[0].CancelGroup? && r[0].group == listener.group
  {
    match event
    case ViewAttached => []
    case ViewDetached => [CancelGroup(listener.group)]
  }

  /** The effects of `onFailure(call, e)`: the error state is shown with the
      same failure before the base hook runs, once each. */
  function FailureEffects(layout: StateLayout, call: Call, e: Throwable): (r: seq<Effect>)
    ensures Count(r, ShowError(layout, e)) == 1 && Count(r, SuperOnFailure(call, e)) == 1
    ensures |r| == 2 && r[0] == ShowError(layout, e) && r[1] == SuperOnFailure(call, e)
  {
    [ShowError(layout, e), SuperOnFailure(call, e)]
  }

  /** The effects of `onError(call, e)`: only the configured handler's
      state-aware hook, given the bound layout; the base hook is not run. */
  function ErrorEffects(handler: Config.ErrorHandler, layout: StateLayout, e: Throwable): (r: seq<Effect>)
    ensures |r| == 1 && r[0] == HandlerOnStateError(handler, e, layout)
    ensures forall x :: x in r ==> !x.SuperOnError? && !x.SuperOnFailure? && !x.SuperOnComplete? && !x.ShowError?
  {
    [HandlerOnStateError(handler, e, layout)]
  }

  /** The effects of `onComplete(call, e)`: the base hook first, then the
      content is shown exactly when there was no error or a cancellation. */
  function CompleteEffects(layout: StateLayout, call: Call, e: Option<Throwable>): (r: seq<Effect>)
    ensures |r| >= 1 && r[0] == SuperOnComplete(call, e)
    ensures ShowContent(layout) in r <==> ShowsContent(e)
    ensures !ShowsContent(e) ==> r == [SuperOnComplete(call, e)]
    ensures Count(r, ShowContent(layout)) <= 1
  {
    [SuperOnComplete(call, e)] + if ShowsContent(e) then [ShowContent(layout)] else []
  }

  class StateCallback {
    const state: StateLayout
    /** The global configuration; `onError` reads its error handler when it runs. */
    const config: Config.NetConfig
    /** Every effect the callback and its listeners have issued, in order. */
    ghost var trace: seq<Effect>

    constructor (state: StateLayout, config: Config.NetConfig)
      ensures this.state == state && this.config == config && trace == []
    {
      this.state := state;
      this.config := config;
      trace := [];
    }

    method OnStart(request: Request)
      modifies this`trace
      ensures trace == old(trace) + StartEffects(state, request)
    {
      trace := trace + [SuperOnStart(request)];
      trace := trace + [AddAttachListener(state, CancelGroupOnDetach(request.group))];
    }

    /** The registered listener receiving an attach-state change. */
    method OnAttachStateChange(listener: AttachListener, event: AttachEvent)
      requires AddAttachListener(state, listener) in trace
      modifies this`trace
      ensures trace == old(trace) + ListenerEffects(listener, event)
    {
      if event == ViewDetached {
        trace := trace + [CancelGroup(listener.group)];
      }
    }

    method OnFailure(call: Call, e: Throwable)
      requires IOException in e.tags
      modifies this`trace
      ensures trace == old(trace) + FailureEffects(state, call, e)
    {
      trace := trace + [ShowError(state, e)];
      trace := trace + [SuperOnFailure(call, e)];
    }

    method OnError(call: Call, e: Throwable)
      requires IOException in e.tags
      modifies this`trace
      ensures trace == old(trace) + ErrorEffects(config.errorHandler, state, e)
    {
      trace := trace + [HandlerOnStateError(config.errorHandler, e, state)];
    }

    method OnComplete(call: Call, e: Option<Throwable>)
      modifies this`trace
      ensures trace == old(trace) + CompleteEffects(state, call, e)
    {
      trace := trace + [SuperOnComplete(call, e)];
      if e.None? || CancellationException in e.value.tags {
        trace := trace + [ShowContent(state)];
      }
    }
  }

  /** A detach of the layout after `onStart(request)` cancels the request's
      whole group, not a single call; an attach issues nothing. */
  lemma DetachCancelsRequestGroup(layout: StateLayout, request: Request)
    ensures ListenerEffects(StartEffects(layout, request)[1].listener, ViewDetached)
            == [CancelGroup(request.group)]
    ensures ListenerEffects(StartEffects(layout, request)[1].listener, ViewAttached) == []
  {
  }

  /** A failed call, driven through start, failure, error and completion
      with a failure that is not a cancellation, ends showing the error and
      never shows the content; its last effect is the base completion. */
  lemma FailedCallNeverShowsContent(
    layout: StateLayout, handler: Config.ErrorHandler, request: Request, call: Call, e: Throwable)
    requires CancellationException !in e.tags
    ensures var run := StartEffects(layout, request) + FailureEffects(layout, call, e)
                       + ErrorEffects(handler, layout, e) + CompleteEffects(layout, call, Some(e));
            ShowContent(layout) !in run && ShowError(layout, e) in run &&
            run[|run| - 1] == SuperOnComplete(call, Some(e))
  {
    var run := StartEffects(layout, request) + FailureEffects(layout, call, e)
               + ErrorEffects(handler, layout, e) + CompleteEffects(layout, call, Some(e));
    assert run[2] == ShowError(layout, e);
  }

  /** A call that completes without error ends by showing the content, and
      never shows an error. */
  lemma SucceededCallEndsWithContent(layout: StateLayout, request: Request, call: Call)
    ensures var run := StartEffects(layout, request) + CompleteEffects(layout, call, None);
            run[|run| - 1] == ShowContent(layout) &&
            forall x :: x in run ==> !x.ShowError?
  {
  }
}
