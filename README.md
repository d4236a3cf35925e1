# dispatch: emitter, event record and promise

A model of the core of the `dispatch` Python package: a single-threaded
callback registry (`Emitter`), the record `Event`, and a one-shot `Promise`
built on the emitter.

- `common.dfy` (`Common`): `Option`, callback identities, the Python
  exceptions the code can raise, and how a call ends (`Outcome`).
- `emitter.dfy` (`Emitting`): the registry `event_handlers` as a
  `map<string, seq<Entry>>`, where an entry is what `on` appended — a
  callback, or `None` when the decorator form was used. The class `Emitter`
  holds the registry and a ghost log of the callbacks invoked so far. `On`,
  the decorator's application and `Fire` (a loop over the event's list) are
  proved against the specification functions `OnRegistry`, `Register`,
  `Touch` and `Dispatch`, and lemmas relate registering and firing.
- `event.dfy` (`EventRecord`): the class `Event` with its constructor
  defaults and the conditional `Cancel`.
- `promise.dfy` (`Promises`): the class `Promise`, which extends an
  `Emitter` (held as a constant field, since the model has no inheritance),
  its four channel accessors and `Done`, proved against `DoneDispatch`: the
  channels fired one after the other, stopping at the first exception.
  `CompleteOnceExample` replays the scenario of
  `tests/promise/test_promise.py:96-125`, whose `@promise.success` (no
  parentheses) passes the function itself as the callback, the direct form;
  `CancelExample` in `event.dfy` does the same for `Event` and `cancel`.

Callbacks are opaque: each is an identity (`CallbackId`), and calling one
appends it to the emitter's ghost `log`. Calling an entry that is `None`
raises `TypeError` in Python; the model ends the loop of `fire` there with
`Raised(TypeError)`, and `Done` propagates it, skipping the later channels
and the final clearing, as the Python exception would.

The model follows the code, which is simpler than what the package's tests
expect: `fire` walks the live list, calls each callback with no argument
and lets an exception end the walk; there is no deferral, no cancellation
of a firing and no collection of callback errors; `Promise` has no
`finished` flag and `done` takes no `data`, so a registration after `done`
is accepted and delivered by the next `done`
(`LateRegistrationIsDelivered`).

## Model

| member | source | states |
|---|---|---|
| `Emitting.FireWithoutListIsNoOp` | dispatch/events/emitter.py:59-62 | firing an event that has no list, or an emitter on which `on` was never called, invokes nothing and returns normally; a firing invokes nothing and returns normally exactly when the event's list is empty |
| `Emitting.Touch` | dispatch/events/emitter.py:36-41 | the lazy step of `on`: the event gets a list, empty for an event never seen (or when no registry exists yet), and every list keeps its contents |
| `Emitting.Register` | dispatch/events/emitter.py:49 | appending adds exactly one entry at the end of the event's list; no entry is removed or reordered, duplicates are kept, and every other event's list is unchanged |
| `Emitting.OnRegistry` | dispatch/events/emitter.py:36-49 | after `on(event, callback)` the event has a list; it grew by the callback in the direct form and by nothing in the decorator form; no other event's list changes |
| `Emitting.Dispatch` | dispatch/events/emitter.py:64-65 | firing a list invokes at most one callback per entry; it either returns normally, having invoked as many callbacks as the list has entries, or raises `TypeError` before reaching the end |
| `Emitting.DispatchInvokesPrefix` | dispatch/events/emitter.py:64-65 | firing a list invokes its entries in registration order up to the first `None`; it returns normally exactly when no entry is `None`, and otherwise stops at the first `None` with `TypeError` |
| `Emitting.DispatchSingle` | dispatch/events/emitter.py:64-65 | firing a one-entry list calls that entry, or raises `TypeError` if it is `None` |
| `Emitting.DispatchAppend` | dispatch/events/emitter.py:64-65 | firing a list made of two parts runs the first part, and the second part only if the first returned normally |
| `Emitting.DispatchStep` | dispatch/events/emitter.py:64-65 | one iteration of the loop: a callable entry is appended to what was invoked, a `None` entry raises `TypeError` |
| `Emitting.RegisterThenFire` | dispatch/events/emitter.py:36-65 | after `on(event, cb)` on a callable list, `fire(event)` invokes everything it invoked before and then `cb`, last |
| `Emitting.RegisterKeepsCallable` | dispatch/events/emitter.py:36-49 | direct registrations and the lazy step keep every list of the registry callable |
| `Emitting.DecoratorAsWrittenFails` | dispatch/events/emitter.py:43-47 | as written, after the decorator is applied the next `fire(event)` never invokes the decorated function and ends in `TypeError` |
| `Emitting.DocstringExampleAsWritten` | dispatch/events/emitter.py:24-33 | the docstring example as written: `my_func1` runs, then `TypeError` is raised |
| `Emitting.DocstringExampleIntended` | dispatch/events/emitter.py:24-33 | the docstring example with the wrapper appending `func`: both functions run, in registration order |
| `Emitting.Emitter.constructor` | dispatch/events/emitter.py:36-39 | a new emitter has no registrations (the missing `event_handlers` attribute) and has invoked nothing |
| `Emitting.Emitter.On` | dispatch/events/emitter.py:36-49 | the registry becomes `OnRegistry` of the old one; the decorator form returns a wrapper for the event, the direct form returns nothing; nothing is invoked |
| `Emitting.Emitter.Decorate` | dispatch/events/emitter.py:43-47 | as written: the wrapper appends `None` to the event's list and returns `func`; if the list has gone it raises `KeyError` and changes nothing |
| `Emitting.Emitter.DecorateIntended` | dispatch/events/emitter.py:43-47 | corrected: the wrapper appends `func`, leaving the registry as the direct form would, and returns `func` |
| `Emitting.Emitter.Fire` | dispatch/events/emitter.py:59-65 | the registry is unchanged; the log grows by exactly what `Dispatch` of the event's list invokes and the outcome is the one `Dispatch` gives; for an event without a list (or an emitter with no registry) the log is unchanged and `fire` returns normally |
| `Emitting.Emitter.AllOff` | dispatch/async/promise.py:27 | every registration is removed; nothing is invoked |
| `EventRecord.CancelledAfter` | dispatch/events/event.py:32-33 | a cancellable event is cancelled afterwards; a non-cancellable one keeps its flag; cancellation is never undone |
| `EventRecord.CancelIdempotent` | dispatch/events/event.py:30-33 | cancelling twice leaves the same state as cancelling once |
| `EventRecord.CancelExample` | dispatch/events/event.py:23-33 | a default-constructed event is cancellable with no payload and ends cancelled after `cancel()` (called twice); a non-cancellable event keeps `cancelled` false |
| `EventRecord.Event.constructor` | dispatch/events/event.py:23-28 | name, source, data and cancellable are stored as given (data defaults to none, cancellable to true) and the event starts uncancelled |
| `EventRecord.Event.Cancel` | dispatch/events/event.py:30-33 | `cancelled` becomes true when the event is cancellable and is otherwise unchanged; no other field changes |
| `Promises.DoneChannels` | dispatch/async/promise.py:20-26 | `done` fires `success` exactly when successful and `failure` exactly when not, `error` exactly when an error is given (second, before `complete`), `complete` always and last, no channel twice, and no other channel (two channels, or three with an error) |
| `Promises.FireChannels` | dispatch/async/promise.py:20-26 | calling `fire` on channels one after the other, stopping at the first exception, is a single walk over their lists joined in that order |
| `Promises.JoinedDoneChannels` | dispatch/async/promise.py:20-26 | the lists `done` walks are those of the outcome channel, of `error` when an error is given, and of `complete`, in that order |
| `Promises.DoneDispatch` | dispatch/async/promise.py:20-26 | `done` is one walk over the outcome channel's list, then `error`'s when an error is given, then `complete`'s; the other outcome channel's list is never walked |
| `Promises.DoneInSteps` | dispatch/async/promise.py:20-26 | a channel of `done` is fired only if the channels before it returned normally |
| `Promises.DoneInvokesChannels` | dispatch/async/promise.py:20-26 | when the lists of the three channels it walks are callable (whatever the other lists hold), `done` returns normally and invokes exactly the outcome channel's callbacks, then `error`'s when an error is given, then `complete`'s |
| `Promises.DoneAfterClearInvokesNothing` | dispatch/async/promise.py:27 | once `done` has cleared the registry, a later `done` with any arguments invokes no callback |
| `Promises.LateRegistrationIsDelivered` | dispatch/async/promise.py:20-37 | a callback registered on `success` after `done` cleared the registry is invoked by the next successful `done` |
| `Promises.DecoratedSuccessAsWritten` | dispatch/async/promise.py:29-37 | as written, `@promise.success()` (the accessor called without a callback, then applied) leaves `None` on `success`, so `done` raises `TypeError` before any callback runs and `complete` is never fired |
| `Promises.CompleteScenario` | dispatch/async/promise.py:20-27 | with one callback on each of `success`, `failure` and `complete`, a successful `done` invokes the `success` then the `complete` callback and a failed one the `failure` then the `complete` callback (the scenarios of `tests/promise/test_promise.py:16-94`) |
| `Promises.CompleteOnceExample` | tests/promise/test_promise.py:96-125 | a promise with a callback on each of `success` (1), `failure` (2) and `complete` (3), completed by `done()`, `done()` and `done(False)`, has invoked exactly 1 then 3 and is left with no registrations |
| `Promises.Promise.constructor` | dispatch/async/promise.py:5 | a new promise is a new emitter with no registrations |
| `Promises.Promise.Done` | dispatch/async/promise.py:6-27 | the log grows by exactly `DoneDispatch` of the old registry; the registry is empty afterwards when `done` returned normally and unchanged when an exception propagated |
| `Promises.Promise.Success` | dispatch/async/promise.py:29-37 | registers on the `success` channel only, exactly as `on('success', callback)` |
| `Promises.Promise.Failure` | dispatch/async/promise.py:39-48 | registers on the `failure` channel only, exactly as `on('failure', callback)` |
| `Promises.Promise.Error` | dispatch/async/promise.py:50-58 | registers on the `error` channel only, exactly as `on('error', callback)` |
| `Promises.Promise.Complete` | dispatch/async/promise.py:60-69 | registers on the `complete` channel only, exactly as `on('complete', callback)` |

## Left out

- `Emitting.Emitter.AllOff`: `all_off` is called by `done` but is not defined in `dispatch/events/emitter.py`; the model assumes it removes every registration, which is what `tests/promise/test_promise.py:96-125` relies on. Defined as written, the call would raise `AttributeError` after `complete` and clear nothing.
- `Promise.all`, `Promise.any`, `remaining`, `finished` and the `RuntimeError` on late registration: the tests use them but the code has none of them.
- `evt.defer()`, `EventData`, callbacks that take an event argument, cancellation that stops dispatch: not in the code; `fire` never builds an `Event`, so `Cancel` has no effect on dispatch.
- Callback bodies: callbacks are identities; a callback that raises, or that registers on or fires the emitter while it is being fired, is not modelled (`fire` iterates the live list, so such a callback would change what the same firing sees).
- `Emitting.Emitter.Decorate`: the wrapper is recorded by its event only and is applied to the emitter that made it; passing `None` as `func` is not modelled.
- The `err` object given to `done` is only tested against `None`, so it is a plain number; the Python `AttributeError` path that creates `event_handlers` is folded into "the registry starts as the empty map"; the unused `functools` import and `setup.py` carry no behaviour.
- `Event.source` and `Event.data` are opaque (a reference and an optional payload of any type).

## Findings

| source | as written | input that shows it | evidently intended | confidence | as-written member | corrected member |
|---|---|---|---|---|---|---|
| dispatch/events/emitter.py:45 | the decorator's wrapper appends `callback`, which is `None` on that path | `@emitter.on('some_event')` over `my_func2`, then `emitter.fire('some_event')`: `my_func2` is never called and the call of `None` raises `TypeError` | append `func`, so the decorated function is registered like a direct one | high, not executed | `Emitting.Emitter.Decorate`, `Emitting.DecoratorAsWrittenFails` | `Emitting.Emitter.DecorateIntended`, `Emitting.DocstringExampleIntended` |
