/**
 * Clients of the event router: short runs of the model, each proved from the
 * contracts of `EventRouter` alone, showing how the router behaves on a few
 * typical schedules.
 */
module Scenarios {
  import opened Events
  import opened Router

  function ApiEvent(status: string, id: string): Option<Event>
  {
    Some(Event(status, id, map[]))
  }

  /** The client sends `event` to an idle router with an empty buffered
      listener, and its only dispatch loop takes it. */
  method TakeOne(r: EventRouter, event: Option<Event>)
    requires r.Valid() && 0 < r.bufferSize
    requires r.listener == [] && r.loops == [Waiting]
    modifies r
    ensures r.Valid() && r.available == old(r.available) && r.inFlight == old(r.inFlight)
    ensures r.listener == [] && r.loops == [Acquiring(event, false)]
  {
    var accepted := r.Deliver(event, 0);
    var took := r.Receive(0);
  }

  /** The dispatch loop holding `event` finds a free token and the worker it
      launches runs to completion. */
  method WorkOne(r: EventRouter, event: Option<Event>) returns (trace: seq<Invocation>)
    requires r.Valid() && 0 < r.available && r.inFlight == []
    requires r.loops == [Acquiring(event, false)]
    modifies r
    ensures r.Valid() && r.available == old(r.available) && r.listener == old(r.listener)
    ensures r.inFlight == [] && r.loops == [Waiting]
    ensures trace == Invoked(r.handlers, event, r.handle)
  {
    var step := r.Select(0, false);
    trace := r.DoWork(0);
  }

  /** One event through a started, idle router with a free token: the client
      sends it, the dispatch loop takes it and a token, and the worker runs
      to completion. */
  method RouteOne(r: EventRouter, event: Option<Event>) returns (trace: seq<Invocation>)
    requires r.Valid() && 0 < r.bufferSize && 0 < r.available
    requires r.listener == [] && r.inFlight == [] && r.loops == [Waiting]
    modifies r
    ensures r.Valid() && r.available == old(r.available)
    ensures r.listener == [] && r.inFlight == [] && r.loops == [Waiting]
    ensures trace == Invoked(r.handlers, event, r.handle)
  {
    TakeOne(r, event);
    trace := WorkOne(r, event);
  }

  /** Two workers, no handler for status "x": each of five events is taken,
      gets a token at once, invokes nothing and gives its token back. */
  method UnregisteredStatusPassesThrough()
  {
    var r := new EventRouter(5, 2, map[], (h: HandlerId, e: Event) => Ok);
    var err := r.Start(Ok);
    for n := 0 to 5
      invariant r.Valid() && r.handlers == map[] && r.bufferSize == 5
      invariant r.available == 2 && r.inFlight == [] && r.listener == [] && r.loops == [Waiting]
    {
      var trace := RouteOne(r, ApiEvent("x", "img"));
      assert trace == [];
    }
  }

  /** One worker, one handler for status "y": the first event holds the only
      token and the dispatch loop holds the second. */
  method OccupyOnlyWorker(r: EventRouter, first: Option<Event>, second: Option<Event>)
    requires r.Valid() && r.poolSize == 1 && r.bufferSize == 2 && r.available == 1
    requires r.listener == [] && r.inFlight == [] && r.loops == [Waiting]
    modifies r
    ensures r.Valid() && r.available == 0 && r.listener == []
    ensures r.inFlight == [first] && r.loops == [Acquiring(second, false)]
  {
    QueueTwo(r, first, second);
    LaunchFirst(r, first, second);
    var took := r.Receive(0);
  }

  /** The dispatch loop takes the older of two queued events and launches it
      with the only token. */
  method LaunchFirst(r: EventRouter, first: Option<Event>, second: Option<Event>)
    requires r.Valid() && r.available == 1 && r.inFlight == []
    requires r.listener == [first, second] && r.loops == [Waiting]
    modifies r
    ensures r.Valid() && r.available == 0 && r.inFlight == [first]
    ensures r.listener == [second] && r.loops == [Waiting]
  {
    var took := r.Receive(0);
    assert [first, second][1..] == [second];
    var step := r.Select(0, false);
  }

  /** The client sends two events; both fit in the listener's buffer. */
  method QueueTwo(r: EventRouter, first: Option<Event>, second: Option<Event>)
    requires r.Valid() && r.bufferSize == 2 && r.listener == []
    modifies r
    ensures r.Valid() && r.listener == [first, second]
    ensures r.available == old(r.available) && r.inFlight == old(r.inFlight) && r.loops == old(r.loops)
  {
    var accepted := r.Deliver(first, 0);
    accepted := r.Deliver(second, 0);
  }

  /** A loop holding `second` while no token is free: without a timeout it
      blocks, the timer fires once, and a spent timer leaves it blocked. */
  method TimerFiresOnce(r: EventRouter, second: Option<Event>)
    requires r.Valid() && r.available == 0 && r.loops == [Acquiring(second, false)]
    modifies r
    ensures r.Valid() && r.available == 0 && r.inFlight == old(r.inFlight)
    ensures r.listener == old(r.listener) && r.loops == [Acquiring(second, true)]
  {
    var step := r.Select(0, false);
    assert step == Blocked;
    step := r.Select(0, true);
    assert step == TimedOut && r.loops == [Acquiring(second, true)];
    step := r.Select(0, true);
    assert step == Blocked;
  }

  /** The second event waits for the token until the first event's worker is
      done. Its timer fires once; after that only the token ends the wait. */
  method SingleWorkerSerialises()
  {
    var r := new EventRouter(2, 1, map["y" := ["record"]], (h: HandlerId, e: Event) => Ok);
    var err := r.Start(Ok);
    var first, second := ApiEvent("y", "1"), ApiEvent("y", "2");
    OccupyOnlyWorker(r, first, second);

    TimerFiresOnce(r, second);

    FinishThenLaunch(r, first, second);
  }

  /** The worker of `first` finishes and returns the only token, which the
      loop waiting with `second` then takes. */
  method FinishThenLaunch(r: EventRouter, first: Option<Event>, second: Option<Event>)
    requires r.Valid() && r.available == 0 && r.inFlight == [first]
    requires r.loops == [Acquiring(second, true)]
    modifies r
    ensures r.Valid() && r.available == 0 && r.inFlight == [second] && r.loops == [Waiting]
  {
    var trace := r.DoWork(0);
    assert r.available == 1 && r.inFlight == [];
    var step := r.Select(0, false);
    assert step == Launched;
  }

  /** Status "z" has two handlers and the first always fails: the second is
      still called and the token still comes back. */
  method FailingHandlerIsIsolated()
  {
    var handle := (h: HandlerId, e: Event) => if h == "fail" then Err("boom") else Ok;
    var hs := ["fail", "record"];
    var r := new EventRouter(1, 1, map["z" := hs], handle);
    var err := r.Start(Ok);
    var event := Event("z", "1", map[]);
    var trace := RouteOne(r, Some(event));
    assert trace == Run(hs, event, handle);
    RunAt(hs, event, handle, 0);
    RunAt(hs, event, handle, 1);
    assert trace[0] == Invocation("fail", Err("boom"));
    assert trace[1] == Invocation("record", Ok);
    assert r.available == 1;
  }

  /** A nil event gets a worker like any other, invokes nothing, and gives
      the token back. */
  method NilEventIsSkipped()
  {
    var r := new EventRouter(1, 1, map["z" := ["record"]], (h: HandlerId, e: Event) => Ok);
    var err := r.Start(Ok);
    var trace := RouteOne(r, None);
    assert trace == [] && r.available == 1;
  }

  /** With an unbuffered listener a send only succeeds when a dispatch loop
      is blocked on the receive. */
  method UnbufferedListenerHandsOff()
  {
    var r := new EventRouter(0, 1, map[], (h: HandlerId, e: Event) => Ok);
    var accepted := r.Deliver(ApiEvent("x", "1"), 0);
    assert !accepted;
    var err := r.Start(Ok);
    accepted := r.Deliver(ApiEvent("x", "1"), 0);
    assert accepted && r.loops == [Acquiring(ApiEvent("x", "1"), false)];
  }

  /** Stop on a router that was never started still asks the client to
      remove the listener, since the listener is never nil, and returns
      whatever the client answers. */
  method StopBeforeStart()
  {
    var r := new EventRouter(1, 1, map[], (h: HandlerId, e: Event) => Ok);
    var err := r.Stop(Err("no such listener"));
    assert err == Err("no such listener") && r.calls == [RemoveEventListener];
  }

  /** Start is not guarded: a second call launches a second dispatch loop
      and subscribes again, even after the first subscription failed. */
  method StartTwice()
  {
    var r := new EventRouter(1, 1, map[], (h: HandlerId, e: Event) => Ok);
    var err := r.Start(Err("connection refused"));
    assert err == Err("connection refused") && r.loops == [Waiting];
    err := r.Start(Ok);
    assert err == Ok && r.loops == [Waiting, Waiting];
    assert r.calls == [AddEventListener, AddEventListener];
  }
}
