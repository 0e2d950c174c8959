/**
 * Events and handlers of the image-processor event router, and what one
 * worker does with one event: look up the handlers registered for the
 * event's status and call each of them in order, whatever earlier ones
 * returned.
 */
module Events {

  datatype Option<+T> = None | Some(value: T)

  /** A Docker event. The router only inspects `status`; the rest is payload
      handed to the handlers untouched. */
  datatype Event = Event(status: string, id: string, attributes: map<string, string>)

  /** A registered handler, identified by name; its behaviour is a `HandleFn`. */
  type HandlerId = string

  /** The `error` a handler or the Docker client returns: nil or an error. */
  datatype Outcome = Ok | Err(message: string)

  /** What a handler returns for an event. */
  type HandleFn = (HandlerId, Event) -> Outcome

  /** Status -> handlers, in the order they were registered. */
  type Registry = map<string, seq<HandlerId>>

  /** One call of a handler, with what it returned. */
  datatype Invocation = Invocation(handler: HandlerId, outcome: Outcome)

  /** The handlers called, in call order. */
  function Callees(trace: seq<Invocation>): (callees: seq<HandlerId>)
  {
    if trace == [] then [] else [trace[0].handler] + Callees(trace[1..])
  }

  /** The handler errors that a worker logs, in call order. */
  function Failures(trace: seq<Invocation>): (failures: seq<Invocation>)
  {
    if trace == [] then []
    else (if trace[0].outcome.Err? then [trace[0]] else []) + Failures(trace[1..])
  }

  /** Calling every handler of `hs` on `e`, in order, none skipped. */
  function Run(hs: seq<HandlerId>, e: Event, handle: HandleFn): (trace: seq<Invocation>)
    ensures |trace| == |hs|
  {
    if hs == [] then [] else [Invocation(hs[0], handle(hs[0], e))] + Run(hs[1..], e, handle)
  }

  /** The k-th call of `Run` is to the k-th handler, and records what that handler returned. */
  lemma {:induction false} RunAt(hs: seq<HandlerId>, e: Event, handle: HandleFn, k: nat)
    requires k < |hs|
    ensures Run(hs, e, handle)[k] == Invocation(hs[k], handle(hs[k], e))
  {
    if k > 0 {
      RunAt(hs[1..], e, handle, k - 1);
    }
  }

  /** Exactly the registered handlers are called, each once and in list order,
      whatever any of them returns: an error never stops the later ones. */
  lemma {:induction false} CalleesOfRun(hs: seq<HandlerId>, e: Event, handle: HandleFn)
    ensures Callees(Run(hs, e, handle)) == hs
  {
    if hs != [] {
      CalleesOfRun(hs[1..], e, handle);
    }
  }

  /** The logged errors are the calls whose handler failed, in call order. */
  lemma {:induction false} FailuresOfRun(hs: seq<HandlerId>, e: Event, handle: HandleFn)
    ensures Failures(Run(hs, e, handle))
         == Run(FailingHandlers(hs, e, handle), e, handle)
  {
    if hs != [] {
      FailuresOfRun(hs[1..], e, handle);
      var rest := FailingHandlers(hs[1..], e, handle);
      assert Run(hs, e, handle)[1..] == Run(hs[1..], e, handle);
      if handle(hs[0], e).Err? {
        assert ([hs[0]] + rest)[1..] == rest;
      } else {
        assert FailingHandlers(hs, e, handle) == rest;
        assert Failures(Run(hs, e, handle)) == Failures(Run(hs[1..], e, handle));
      }
    }
  }

  /** The handlers of `hs` that return an error for `e`, in list order. */
  function FailingHandlers(hs: seq<HandlerId>, e: Event, handle: HandleFn): (failing: seq<HandlerId>)
  {
    if hs == [] then []
    else (if handle(hs[0], e).Err? then [hs[0]] else []) + FailingHandlers(hs[1..], e, handle)
  }

  /** The calls a worker makes for `event`: none for a nil event, none for a
      status with no registered handlers (not an error), and otherwise every
      handler registered for the status, in order. */
  function Invoked(registry: Registry, event: Option<Event>, handle: HandleFn): (trace: seq<Invocation>)
    ensures event.None? ==> trace == []
    ensures event.Some? && event.value.status !in registry ==> trace == []
    ensures event.Some? && event.value.status in registry ==>
              Callees(trace) == registry[event.value.status]
  {
    match event
    case None => []
    case Some(e) =>
      if e.status in registry then
        CalleesOfRun(registry[e.status], e, handle);
        Run(registry[e.status], e, handle)
      else []
  }

  /** The handler loop of a worker: call each handler in turn, log an error
      and carry on. */
  method RunHandlers(hs: seq<HandlerId>, e: Event, handle: HandleFn) returns (trace: seq<Invocation>)
    ensures trace == Run(hs, e, handle)
  {
    trace := [];
    for i := 0 to |hs|
      invariant |trace| == i
      invariant forall k :: 0 <= k < i ==> trace[k] == Invocation(hs[k], handle(hs[k], e))
    {
      var outcome := handle(hs[i], e);
      // An error is only logged; the loop goes on to the next handler.
      trace := trace + [Invocation(hs[i], outcome)];
    }
    forall k | 0 <= k < |hs|
      ensures trace[k] == Run(hs, e, handle)[k]
    {
      RunAt(hs, e, handle, k);
    }
  }
}
