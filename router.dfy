/**
 * The event router: a bounded listener queue fed by the Docker client, a pool
 * of interchangeable worker tokens, dispatch loops that take one event at a
 * time and wait for a token, and workers that run the handlers and hand their
 * token back.
 *
 * Goroutines are modelled by their state and atomic steps: each dispatch loop
 * started by `Start` is a `Loop`, each launched `doWork` is an entry of
 * `inFlight`, and a scheduler interleaves `Deliver`, `Receive`, `Select` and
 * `DoWork` in any order.
 */
module Router {
  import opened Events

  /** Where one `routeEvents` goroutine is: blocked on the listener, or holding
      an event while it waits for a token. `timerFired` records that the
      timer made for this event has already been drained: it is never re-armed. */
  datatype Loop = Waiting | Acquiring(event: Option<Event>, timerFired: bool)

  /** The outcome of one pass through the select of `routeEvents`. */
  datatype SelectResult = Launched | TimedOut | Blocked

  /** A call the router makes into the Docker client. */
  datatype ClientCall = AddEventListener | RemoveEventListener

  /** The event a loop holds while it waits for a token, if any. */
  function Pending(l: Loop): (pending: multiset<Option<Event>>)
  {
    if l.Acquiring? then multiset{l.event} else multiset{}
  }

  /** The events held by dispatch loops that have not got a token yet. */
  function Held(loops: seq<Loop>): (held: multiset<Option<Event>>)
  {
    if loops == [] then multiset{} else Pending(loops[0]) + Held(loops[1..])
  }

  /** What the only dispatch loop, if there is one, holds. */
  function HeldByOnly(loops: seq<Loop>): (held: seq<Option<Event>>)
  {
    if loops != [] && loops[0].Acquiring? then [loops[0].event] else []
  }

  /** What two groups of loops hold together. */
  lemma {:induction false} HeldConcat(a: seq<Loop>, b: seq<Loop>)
    ensures Held(a + b) == Held(a) + Held(b)
  {
    if a == [] {
      assert a + b == b;
    } else {
      assert (a + b)[0] == a[0] && (a + b)[1..] == a[1..] + b;
      HeldConcat(a[1..], b);
    }
  }

  /** Replacing the state of loop `k` swaps its share of what is held. */
  lemma HeldUpdate(loops: seq<Loop>, k: nat, l: Loop)
    requires k < |loops|
    ensures Held(loops[k := l]) + Pending(loops[k]) == Held(loops) + Pending(l)
  {
    var before, after := loops[..k], loops[k + 1..];
    assert loops == before + ([loops[k]] + after);
    assert loops[k := l] == before + ([l] + after);
    HeldConcat(before, [loops[k]] + after);
    HeldConcat(before, [l] + after);
    assert ([loops[k]] + after)[1..] == after;
    assert ([l] + after)[1..] == after;
  }

  /** Multiset cancellation: a common part added to both sides can be
      dropped. Used by `AccountedTimeout`. */
  lemma Cancel(a: multiset<Option<Event>>, b: multiset<Option<Event>>, c: multiset<Option<Event>>)
    requires a + c == b + c
    ensures a == b
  {
    forall x
      ensures a[x] == b[x]
    {
      assert (a + c)[x] == (b + c)[x];
    }
  }

  /** The bookkeeping of events between the listener and the end of `doWork`:
      every event taken from the listener is either launched once or still
      held by the loop that took it, with a single loop in the order taken;
      and every launched event is either running or finished, once. */
  ghost predicate Accounted(received: seq<Option<Event>>, launched: seq<Option<Event>>,
                            finished: seq<Option<Event>>, inFlight: seq<Option<Event>>,
                            loops: seq<Loop>)
  {
    && multiset(received) == multiset(launched) + Held(loops)
    && (|loops| <= 1 ==> received == launched + HeldByOnly(loops))
    && multiset(launched) == multiset(finished) + multiset(inFlight)
  }

  /** Starting another dispatch loop keeps the books. */
  lemma AccountedStart(received: seq<Option<Event>>, launched: seq<Option<Event>>,
                       finished: seq<Option<Event>>, inFlight: seq<Option<Event>>,
                       loops: seq<Loop>)
    requires Accounted(received, launched, finished, inFlight, loops)
    ensures Accounted(received, launched, finished, inFlight, loops + [Waiting])
  {
    HeldConcat(loops, [Waiting]);
  }

  /** A waiting loop taking an event keeps the books. */
  lemma AccountedTake(received: seq<Option<Event>>, launched: seq<Option<Event>>,
                      finished: seq<Option<Event>>, inFlight: seq<Option<Event>>,
                      loops: seq<Loop>, k: nat, event: Option<Event>)
    requires Accounted(received, launched, finished, inFlight, loops)
    requires k < |loops| && loops[k].Waiting?
    ensures Accounted(received + [event], launched, finished, inFlight,
                      loops[k := Acquiring(event, false)])
  {
    HeldUpdate(loops, k, Acquiring(event, false));
    assert Pending(loops[k]) == multiset{};
    assert Pending(Acquiring(event, false)) == multiset{event};
    assert Held(loops[k := Acquiring(event, false)]) == Held(loops) + multiset{event};
    assert multiset(received + [event]) == multiset(received) + multiset{event};
    if |loops| == 1 {
      assert HeldByOnly(loops) == [] && HeldByOnly(loops[k := Acquiring(event, false)]) == [event];
    }
  }

  /** A timeout keeps the books: the loop still holds its event. */
  lemma AccountedTimeout(received: seq<Option<Event>>, launched: seq<Option<Event>>,
                         finished: seq<Option<Event>>, inFlight: seq<Option<Event>>,
                         loops: seq<Loop>, k: nat)
    requires Accounted(received, launched, finished, inFlight, loops)
    requires k < |loops| && loops[k].Acquiring?
    ensures Accounted(received, launched, finished, inFlight,
                      loops[k := Acquiring(loops[k].event, true)])
  {
    var loops' := loops[k := Acquiring(loops[k].event, true)];
    HeldUpdate(loops, k, Acquiring(loops[k].event, true));
    assert Pending(loops[k]) == Pending(Acquiring(loops[k].event, true));
    Cancel(Held(loops'), Held(loops), Pending(loops[k]));
    if |loops| == 1 {
      assert HeldByOnly(loops[k := Acquiring(loops[k].event, true)]) == HeldByOnly(loops);
    }
  }

  /** Launching the held event with a token keeps the books. */
  lemma AccountedLaunch(received: seq<Option<Event>>, launched: seq<Option<Event>>,
                        finished: seq<Option<Event>>, inFlight: seq<Option<Event>>,
                        loops: seq<Loop>, k: nat)
    requires Accounted(received, launched, finished, inFlight, loops)
    requires k < |loops| && loops[k].Acquiring?
    ensures Accounted(received, launched + [loops[k].event], finished,
                      inFlight + [loops[k].event], loops[k := Waiting])
  {
    var event := loops[k].event;
    HeldUpdate(loops, k, Waiting);
    assert Pending(loops[k]) == multiset{event};
    assert Pending(Waiting) == multiset{};
    assert Held(loops) == Held(loops[k := Waiting]) + multiset{event};
    assert multiset(launched + [event]) == multiset(launched) + multiset{event};
    assert multiset(inFlight + [event]) == multiset(inFlight) + multiset{event};
    if |loops| == 1 {
      assert HeldByOnly(loops) == [event] && HeldByOnly(loops[k := Waiting]) == [];
      assert received == (launched + [event]) + [];
    }
  }

  /** A worker finishing keeps the books. */
  lemma AccountedFinish(received: seq<Option<Event>>, launched: seq<Option<Event>>,
                        finished: seq<Option<Event>>, inFlight: seq<Option<Event>>,
                        loops: seq<Loop>, i: nat)
    requires Accounted(received, launched, finished, inFlight, loops)
    requires i < |inFlight|
    ensures Accounted(received, launched, finished + [inFlight[i]],
                      inFlight[..i] + inFlight[i + 1..], loops)
  {
    assert inFlight == inFlight[..i] + [inFlight[i]] + inFlight[i + 1..];
    assert multiset(inFlight) == multiset(inFlight[..i] + inFlight[i + 1..]) + multiset{inFlight[i]};
    assert multiset(finished + [inFlight[i]]) == multiset(finished) + multiset{inFlight[i]};
  }

  class EventRouter {
    /** The handler registry: only read after construction. */
    const handlers: Registry
    /** What each registered handler returns for an event. */
    const handle: HandleFn
    /** Capacity of the listener channel. */
    const bufferSize: nat
    /** Capacity of the workers channel, filled with that many tokens. */
    const poolSize: nat
    /** Whether `listener` is non-nil. */
    const hasListener: bool

    /** Events buffered in the listener channel, oldest first. */
    var listener: seq<Option<Event>>
    /** Worker tokens sitting in the workers channel. */
    var available: nat
    /** Events of the `doWork` goroutines that have started and not finished. */
    var inFlight: seq<Option<Event>>
    /** One entry per `routeEvents` goroutine launched. */
    var loops: seq<Loop>
    /** The calls made into the Docker client, in order. */
    var calls: seq<ClientCall>

    /** Every event put into the listener channel, in arrival order. */
    ghost var delivered: seq<Option<Event>>
    /** Every event a dispatch loop took from the listener, in order taken. */
    ghost var received: seq<Option<Event>>
    /** Every event handed to a `doWork` goroutine, in launch order. */
    ghost var launched: seq<Option<Event>>
    /** Every event whose `doWork` has returned, in completion order. */
    ghost var finished: seq<Option<Event>>

    ghost predicate Valid()
      reads this
    {
      // the listener channel is bounded
      |listener| <= bufferSize
      // token conservation: each token is either in the pool or held by one worker
      && available + |inFlight| == poolSize
      // the listener is FIFO: events are taken in the order they arrived
      && delivered == received + listener
      // no event is lost or launched twice
      && Accounted(received, launched, finished, inFlight, loops)
    }

    /** NewEventRouter: fill the worker pool and make an empty listener. */
    constructor (bufferSize: nat, workerPoolSize: nat, handlers: Registry, handle: HandleFn)
      ensures Valid()
      ensures this.bufferSize == bufferSize && this.poolSize == workerPoolSize
      ensures this.handlers == handlers && this.handle == handle
      ensures available == workerPoolSize && inFlight == []
      ensures listener == [] && hasListener
      ensures loops == [] && calls == []
      ensures delivered == [] && received == [] && launched == [] && finished == []
    {
      var tokens: nat := 0;
      while tokens < workerPoolSize
        invariant tokens <= workerPoolSize
      {
        tokens := tokens + 1;
      }
      this.handlers := handlers;
      this.handle := handle;
      this.bufferSize := bufferSize;
      this.poolSize := workerPoolSize;
      hasListener := true;
      listener := [];
      available := tokens;
      inFlight := [];
      loops := [];
      calls := [];
      delivered, received, launched, finished := [], [], [], [];
    }

    /** Start: launch a dispatch loop, then subscribe the listener with the
        client; the client's error is returned as is. The loop is launched
        whatever the client answers, and a second Start launches a second loop. */
    method Start(addResult: Outcome) returns (err: Outcome)
      requires Valid()
      modifies this`loops, this`calls
      ensures Valid()
      ensures loops == old(loops) + [Waiting]
      ensures calls == old(calls) + [AddEventListener]
      ensures err == addResult
    {
      AccountedStart(received, launched, finished, inFlight, loops);
      loops := loops + [Waiting];
      calls := calls + [AddEventListener];
      err := addResult;
    }

    /** Stop: without a listener, succeed without calling the client;
        otherwise unsubscribe it and return the client's error as is.
        Dispatch loops and running workers are not stopped. */
    method Stop(removeResult: Outcome) returns (err: Outcome)
      requires Valid()
      modifies this`calls
      ensures Valid()
      ensures !hasListener ==> err == Ok && calls == old(calls)
      ensures hasListener ==> err == removeResult && calls == old(calls) + [RemoveEventListener]
    {
      if !hasListener {
        return Ok;
      }
      calls := calls + [RemoveEventListener];
      err := removeResult;
    }

    /** The Docker client sends `event` on the listener. A buffered send
        succeeds while there is room. An unbuffered listener hands the event
        straight to a dispatch loop blocked on it (`receiver`), which starts
        a fresh timer for it. Otherwise the send blocks: nothing changes and
        `accepted` is false. */
    method Deliver(event: Option<Event>, receiver: nat) returns (accepted: bool)
      requires Valid()
      modifies this`listener, this`loops, this`delivered, this`received
      ensures Valid()
      ensures accepted == (old(|listener|) < bufferSize
                           || (bufferSize == 0 && receiver < old(|loops|) && old(loops[receiver]).Waiting?))
      ensures delivered == old(delivered) + (if accepted then [event] else [])
      ensures old(|listener|) < bufferSize ==>
                listener == old(listener) + [event] && loops == old(loops) && received == old(received)
      ensures old(|listener|) >= bufferSize && accepted ==>
                listener == old(listener) && received == old(received) + [event]
                && loops == old(loops)[receiver := Acquiring(event, false)]
      ensures !accepted ==> listener == old(listener) && loops == old(loops) && received == old(received)
    {
      if |listener| < bufferSize {
        Enqueue(event);
        accepted := true;
      } else if bufferSize == 0 && receiver < |loops| && loops[receiver].Waiting? {
        HandOff(event, receiver);
        accepted := true;
      } else {
        accepted := false;
      }
    }

    /** A buffered send with room: the event joins the back of the listener. */
    method Enqueue(event: Option<Event>)
      requires Valid() && |listener| < bufferSize
      modifies this`listener, this`delivered
      ensures Valid()
      ensures listener == old(listener) + [event]
      ensures delivered == old(delivered) + [event]
    {
      listener, delivered := listener + [event], delivered + [event];
    }

    /** An unbuffered send meeting loop `k` blocked on the receive: both
        complete at once and the loop starts a fresh timer for the event. */
    method HandOff(event: Option<Event>, k: nat)
      requires Valid() && bufferSize == 0
      requires k < |loops| && loops[k].Waiting?
      modifies this`loops, this`delivered, this`received
      ensures Valid()
      ensures loops == old(loops)[k := Acquiring(event, false)]
      ensures delivered == old(delivered) + [event]
      ensures received == old(received) + [event]
    {
      AccountedTake(received, launched, finished, inFlight, loops, k, event);
      assert listener == [];
      loops, delivered, received := loops[k := Acquiring(event, false)], delivered + [event], received + [event];
    }

    /** routeEvents, `event := <-e.listener`: loop `k` takes the oldest
        buffered event and starts a fresh timer for it, or blocks while the
        listener is empty. */
    method Receive(k: nat) returns (took: bool)
      requires Valid()
      requires k < |loops| && loops[k].Waiting?
      modifies this`listener, this`loops, this`received
      ensures Valid()
      ensures took == (old(listener) != [])
      ensures took ==>
                listener == old(listener)[1..]
                && received == old(received) + [old(listener)[0]]
                && loops == old(loops)[k := Acquiring(old(listener)[0], false)]
      ensures !took ==> listener == old(listener) && received == old(received) && loops == old(loops)
    {
      if listener == [] {
        return false;
      }
      var event := listener[0];
      assert delivered == (received + [event]) + listener[1..];
      AccountedTake(received, launched, finished, inFlight, loops, k, event);
      listener, received, loops := listener[1..], received + [event], loops[k := Acquiring(event, false)];
      took := true;
    }

    /** routeEvents, one pass of the select: loop `k` holds an event. If its
        timer fires (`timerFires`, the first time only) the loop logs and
        waits again, still holding the event. Otherwise, if a token is free,
        it takes it and launches `doWork` for the event. Otherwise it blocks. */
    method Select(k: nat, timerFires: bool) returns (step: SelectResult)
      requires Valid()
      requires k < |loops| && loops[k].Acquiring?
      modifies this`available, this`inFlight, this`loops, this`launched
      ensures Valid()
      ensures step == (if timerFires && !old(loops[k].timerFired) then TimedOut
                       else if old(available) > 0 then Launched
                       else Blocked)
      ensures step == Launched ==>
                available == old(available) - 1
                && inFlight == old(inFlight) + [old(loops[k].event)]
                && launched == old(launched) + [old(loops[k].event)]
                && loops == old(loops)[k := Waiting]
      ensures step == TimedOut ==>
                available == old(available) && inFlight == old(inFlight) && launched == old(launched)
                && loops == old(loops)[k := Acquiring(old(loops[k].event), true)]
      ensures step == Blocked ==>
                available == old(available) && inFlight == old(inFlight) && launched == old(launched)
                && loops == old(loops)
    {
      if timerFires && !loops[k].timerFired {
        TimeOut(k);
        step := TimedOut;
      } else if available > 0 {
        Launch(k);
        step := Launched;
      } else {
        step := Blocked;
      }
    }

    /** `case <-timer.C`: log "Timed out waiting for worker" and wait again,
        still holding the event; the drained timer is not re-armed. */
    method TimeOut(k: nat)
      requires Valid()
      requires k < |loops| && loops[k].Acquiring?
      modifies this`loops
      ensures Valid()
      ensures loops == old(loops)[k := Acquiring(old(loops[k].event), true)]
    {
      AccountedTimeout(received, launched, finished, inFlight, loops, k);
      loops := loops[k := Acquiring(loops[k].event, true)];
    }

    /** `case w := <-e.workers`: take a token and launch `doWork` for the
        event loop `k` holds; the loop goes back to the listener. */
    method Launch(k: nat)
      requires Valid() && available > 0
      requires k < |loops| && loops[k].Acquiring?
      modifies this`available, this`inFlight, this`loops, this`launched
      ensures Valid()
      ensures available == old(available) - 1
      ensures inFlight == old(inFlight) + [old(loops[k].event)]
      ensures launched == old(launched) + [old(loops[k].event)]
      ensures loops == old(loops)[k := Waiting]
    {
      var event := loops[k].event;
      AccountedLaunch(received, launched, finished, inFlight, loops, k);
      available, inFlight, launched, loops := available - 1, inFlight + [event], launched + [event], loops[k := Waiting];
    }

    /** doWork for the `i`-th running worker, run to completion: call the
        handlers registered for the event's status, and give the token back
        on every path (nil event, unknown status, handler errors). */
    method DoWork(i: nat) returns (trace: seq<Invocation>)
      requires Valid()
      requires i < |inFlight|
      modifies this`available, this`inFlight, this`finished
      ensures Valid()
      ensures trace == Invoked(handlers, old(inFlight[i]), handle)
      ensures available == old(available) + 1
      ensures inFlight == old(inFlight[..i] + inFlight[i + 1..])
      ensures finished == old(finished) + [old(inFlight[i])]
    {
      var event := inFlight[i];
      trace := [];
      match event {
        case None =>
        case Some(e) =>
          if e.status in handlers {
            trace := RunHandlers(handlers[e.status], e, handle);
          }
      }
      Release(i);
    }

    /** The deferred `e.workers <- w` of doWork: worker `i` is done and its
        token goes back to the pool. */
    method Release(i: nat)
      requires Valid()
      requires i < |inFlight|
      modifies this`available, this`inFlight, this`finished
      ensures Valid()
      ensures available == old(available) + 1
      ensures inFlight == old(inFlight[..i] + inFlight[i + 1..])
      ensures finished == old(finished) + [old(inFlight[i])]
    {
      AccountedFinish(received, launched, finished, inFlight, loops, i);
      available, inFlight, finished := available + 1, inFlight[..i] + inFlight[i + 1..], finished + [inFlight[i]];
    }
  }

  /** At most `poolSize` workers run at once, and the pool never holds more
      tokens than it was filled with. */
  lemma BoundedConcurrency(r: EventRouter)
    requires r.Valid()
    ensures |r.inFlight| <= r.poolSize && r.available <= r.poolSize
  {
  }

  /** No event is dropped or duplicated on its way through the router: every
      event the client managed to send is, exactly once, still buffered in
      the listener, held by a dispatch loop waiting for a token, running in a
      worker, or finished. */
  lemma NothingLost(r: EventRouter)
    requires r.Valid()
    ensures multiset(r.delivered)
         == multiset(r.listener) + Held(r.loops) + multiset(r.inFlight) + multiset(r.finished)
  {
  }

  /** With a single dispatch loop, events are launched in the order they
      arrived: what is launched is a prefix of what was delivered. */
  lemma LaunchOrder(r: EventRouter)
    requires r.Valid() && |r.loops| <= 1
    ensures r.launched <= r.delivered
  {
  }
}
