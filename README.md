# Event router of image-processor, in Dafny

`image-processor` subscribes to the Docker daemon's event stream and passes each
event to the handlers registered for its status. The routing is done by
`EventRouter` in `cmd/image-processor/event.go`:

- a bounded listener channel that the Docker client fills;
- a pool of `workerPoolSize` interchangeable worker tokens;
- `routeEvents` dispatch loops. Each loop takes one event at a time and waits
  for a token. When its timer fires it only logs and waits again. Once it has a
  token it launches `doWork` for the event;
- `doWork`, which calls every handler registered for the event's status in
  order, logs the errors without stopping, and gives its token back on every
  path.

This project models that router and proves its bookkeeping.

- `events.dfy` (module `Events`): events, handler outcomes and the registry.
  - `Run` is what one worker does with one event, as a pure function.
  - `RunHandlers` is doWork's handler loop, as a method proved against `Run`.
  - `Invoked` is the lookup of doWork, including the nil-event and
    unknown-status cases.
- `router.dfy` (module `Router`): the `EventRouter` class.
  - The channels are fields:
    - `listener` is the buffered events, oldest first;
    - `available` is the tokens in the pool;
    - `inFlight` is the events of the running `doWork` goroutines;
    - `loops` is one state per `routeEvents` goroutine.
  - Each blocking point of the goroutines is an atomic step that a scheduler
    may call in any order: `Deliver`, `Receive`, `Select` and `DoWork`.
  - The real-world inputs are parameters:
    - whether the timer fires (`timerFires`);
    - what the Docker client answers (`addResult`, `removeResult`);
    - what each handler returns (`handle`).
  - Ghost histories of what was delivered, received, launched and finished
    carry the invariant `Valid`. It holds four things:
    - token conservation;
    - the bound on the listener;
    - FIFO order of the listener;
    - exactly-once accounting of every event, in `Accounted`.
- `scenarios.dfy` (module `Scenarios`): short client runs of the class, proved
  from its contracts alone. They cover:
  - an unregistered status;
  - a single worker that serialises two events, with a timeout that fires only
    once;
  - a failing handler that does not stop the next one;
  - a nil event;
  - an unbuffered listener;
  - Stop before Start;
  - Start twice.

Behaviour of the code that the model keeps as written:

- The timer of `routeEvents` (event.go:87) is made once per event and never
  re-armed. After it has fired once, the loop waits for a token with no further
  timeout, although the log line says the wait is re-initialised.
  `Loop.Acquiring.timerFired` records this.
- `Stop` before `Start` is not a silent success. `NewEventRouter` always makes
  a non-nil listener (event.go:54), so `Stop` always calls
  `RemoveEventListener` and returns whatever the client answers. The branch for
  a nil listener (event.go:74-76) is kept behind the constant `hasListener`,
  which the constructor sets to true.
- `Start` has no guard. A second call launches a second dispatch loop and
  subscribes again. The loop is launched even when the subscription fails.
- `Stop` leaves the dispatch loops and the running workers alone.
- With `bufferSize` 0 the listener is unbuffered. A send completes only by
  handing the event straight to a loop that is blocked on the receive
  (`HandOff`).

## Model

| member | source | states |
|---|---|---|
| Events.Run | cmd/image-processor/event.go:111-115 | The handler loop makes one call per registered handler, none skipped. |
| Events.RunAt | cmd/image-processor/event.go:111-112 | The k-th call goes to the k-th registered handler and records that handler's result for the event. |
| Events.CalleesOfRun | cmd/image-processor/event.go:111-115 | The handlers called are exactly the registered list, each once and in list order, whatever any handler returns. |
| Events.FailuresOfRun | cmd/image-processor/event.go:112-114 | The errors logged are exactly the calls of the handlers that fail, in call order. An error does not end the loop. |
| Events.Invoked | cmd/image-processor/event.go:106-116 | A nil event calls no handler. A status with no entry in the registry calls no handler and is not an error. A registered status calls exactly its handler list, in order. |
| Events.RunHandlers | cmd/image-processor/event.go:111-115 | The for-range loop over the handlers produces exactly the trace `Run` specifies. |
| Router.EventRouter.constructor | cmd/image-processor/event.go:45-60 | The pool is filled with exactly `workerPoolSize` tokens by a loop. The listener is empty, non-nil and of capacity `bufferSize`. Nothing is running and the invariant holds. |
| Router.EventRouter.Start | cmd/image-processor/event.go:63-70 | Start adds one more dispatch loop whatever happens, subscribes the listener once, and returns the client's error unchanged. |
| Router.EventRouter.Stop | cmd/image-processor/event.go:73-81 | With no listener, Stop returns nil without calling the client. Otherwise it unsubscribes once and returns the client's error unchanged. |
| Router.EventRouter.Deliver | cmd/image-processor/event.go:54 | A send on the listener succeeds exactly when the buffer has room, or when it is unbuffered and the chosen loop is blocked on the receive. A failed send blocks and changes nothing. |
| Router.EventRouter.Enqueue | cmd/image-processor/event.go:54 | A buffered send with room appends the event at the back of the listener. |
| Router.EventRouter.HandOff | cmd/image-processor/event.go:86-87 | An unbuffered send goes straight to the waiting loop, which now holds the event with a fresh timer. |
| Router.EventRouter.Receive | cmd/image-processor/event.go:86-88 | A waiting loop takes the oldest buffered event, with a fresh timer. It blocks, with nothing changed, while the listener is empty. |
| Router.EventRouter.Select | cmd/image-processor/event.go:89-97 | A pass of the select has three outcomes. If the unspent timer fires, it times out and keeps the event. Otherwise, if a token is free, it launches the event with it. Otherwise it blocks. The event is never dropped. |
| Router.EventRouter.TimeOut | cmd/image-processor/event.go:94-95 | A timeout leaves the event with the loop and spends the timer. |
| Router.EventRouter.Launch | cmd/image-processor/event.go:91-93 | Taking a token removes one from the pool, starts one worker for the held event, and sends the loop back to the listener. |
| Router.EventRouter.DoWork | cmd/image-processor/event.go:104-117 | A worker calls exactly the handlers `Invoked` gives for its event, on every path gives back exactly one token, and leaves the running set. |
| Router.EventRouter.Release | cmd/image-processor/event.go:105 | The deferred send puts one token back in the pool and ends that one worker. |
| Router.AccountedStart | cmd/image-processor/event.go:65 | A new dispatch loop keeps the exactly-once accounting. |
| Router.AccountedTake | cmd/image-processor/event.go:86 | Taking an event from the listener keeps the exactly-once accounting. |
| Router.AccountedTimeout | cmd/image-processor/event.go:94-95 | A timeout keeps the exactly-once accounting: the event is neither lost nor launched. |
| Router.AccountedLaunch | cmd/image-processor/event.go:91-92 | Launching the held event keeps the exactly-once accounting. |
| Router.AccountedFinish | cmd/image-processor/event.go:105 | A worker finishing keeps the exactly-once accounting. |
| Router.BoundedConcurrency | cmd/image-processor/event.go:46-49 | At most `workerPoolSize` doWork goroutines run at once, and the pool never holds more tokens than it was filled with. |
| Router.NothingLost | cmd/image-processor/event.go:85-98 | Each event the client sent is, exactly once, in one of four places: buffered, held by a loop, running, or finished. |
| Router.LaunchOrder | cmd/image-processor/event.go:85-92 | With one dispatch loop, events are launched in the order they arrived. |

## Left out

- `cmd/image-processor/main.go` and `cmd/image-processor/client.go` are not part
  of this model. They cover flag parsing, logging setup, environment lookup,
  and building the Docker client and its TLS settings: process I/O against
  foreign libraries.
- Real time: `workerTimeout` (60 seconds) and `time.NewTimer` become the
  scheduler's choice `timerFires`.
- The Docker client's behaviour becomes parameters: its answers to
  `AddEventListener`/`RemoveEventListener`, and the events it sends through
  `Deliver`.
- Logging has no modelled effect. `Failures` names the calls whose errors are
  logged.
- Router.EventRouter.DoWork runs a worker's whole handler loop as one atomic
  step. Interleaving of two workers' handler calls is not modelled, and neither
  is handlers' own state. A handler's result is a function of the handler and
  the event.
- Router.LaunchOrder is stated only for at most one dispatch loop. After a
  second `Start`, two loops may launch events out of arrival order. The source
  allows this, and `NothingLost` still holds.
- Handlers are assumed not to modify the event. In the source every handler
  receives the same `*docker.APIEvents` pointer, so a handler that changed it
  would change what later handlers see. The model passes one immutable `Event`.
- The listener is never closed in the model. A receive on a closed channel
  returns nil at once, every time, so a closed listener would make a dispatch
  loop launch `doWork(nil)` without end. Here nil events come only from
  `Deliver(None)`, and `Receive` blocks on an empty listener.
- The error result of `NewEventRouter` is always nil (event.go:59), so the
  constructor does not return it.
- Worker identity: `worker` is an empty struct, so the tokens are counted, not
  tracked one by one.
- Negative `bufferSize` or `workerPoolSize` make `make(chan)` panic. The sizes
  are `nat`.
- The goroutines are modelled as atomic steps. The Go memory model and the
  scheduler's fairness are not modelled: a step that blocks leaves the state
  unchanged and may be tried again.
