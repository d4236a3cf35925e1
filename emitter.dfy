/**
 * The callback registry of `Emitter` (dispatch/events/emitter.py).
 *
 * The registry `event_handlers` maps an event name to the list of entries
 * registered for it. An entry is what `on` appended: a callback, or `None`
 * when the decorator form of `on` was used (the wrapper appends the
 * `callback` argument, which is `None` on that path). Firing calls every
 * entry in order; calling `None` raises `TypeError`, which ends the loop
 * and propagates to the caller of `fire`.
 */
module Emitting {
  import opened Common

  type Entry = Option<CallbackId>
  type Registry = map<string, seq<Entry>>

  /** What `on(event)` without a callback returns: a function that, given
      `func`, appends to `event`'s list and returns `func`. */
  datatype Wrapper = Wrapper(event: string)

  /** The callbacks one firing invoked, in order, and how the firing ended. */
  datatype Dispatched = Dispatched(invoked: seq<CallbackId>, outcome: Outcome)

  /** The list `fire(event)` walks; an event without a list (and an emitter
      that has no `event_handlers` yet) behaves as the empty list. */
  function Handlers(h: Registry, event: string): seq<Entry>
  {
    if event in h then h[event] else []
  }

  /** Every entry of the list can be called. */
  predicate Callable(entries: seq<Entry>)
  {
    forall i :: 0 <= i < |entries| ==> entries[i].Some?
  }

  /** Every list of the registry can be called. */
  predicate AllCallable(h: Registry)
  {
    forall e :: e in h ==> Callable(h[e])
  }

  /** The first half of `on`: make sure `event` has a list, starting from
      the empty list for an event never seen before. */
  function Touch(h: Registry, event: string): (r: Registry)
    ensures r.Keys == h.Keys + {event}
    ensures forall e :: Handlers(r, e) == Handlers(h, e)
  {
    h[event := Handlers(h, event)]
  }

  /** `on` appending `entry` to `event`'s list. */
  function Register(h: Registry, event: string, entry: Entry): (r: Registry)
    ensures r.Keys == h.Keys + {event}
    ensures Handlers(r, event) == Handlers(h, event) + [entry]
    ensures |Handlers(r, event)| == |Handlers(h, event)| + 1
    ensures forall e :: e != event ==> Handlers(r, e) == Handlers(h, e)
  {
    h[event := Handlers(h, event) + [entry]]
  }

  /** The registry after `on(event, callback)`: the direct form appends the
      callback, the decorator form only creates the list. */
  function OnRegistry(h: Registry, event: string, callback: Option<CallbackId>): (r: Registry)
    ensures r.Keys == h.Keys + {event}
    ensures Handlers(r, event) == Handlers(h, event) + (if callback.Some? then [callback] else [])
    ensures forall e :: e != event ==> Handlers(r, e) == Handlers(h, e)
  {
    if callback.Some? then Register(h, event, callback) else Touch(h, event)
  }

  /** The effect of the loop of `fire` over one list: each entry in turn is
      called, until one of them is `None`, whose call raises `TypeError`. */
  function Dispatch(entries: seq<Entry>): (d: Dispatched)
    ensures |d.invoked| <= |entries|
    ensures d.outcome == Returned || d.outcome == Raised(TypeError)
    ensures d.outcome == Returned ==> |d.invoked| == |entries|
    ensures d.outcome.Raised? ==> |d.invoked| < |entries|
  {
    if entries == [] then Dispatched([], Returned)
    else match entries[0]
      case None => Dispatched([], Raised(TypeError))
      case Some(cb) =>
        var rest := Dispatch(entries[1..]);
        Dispatched([cb] + rest.invoked, rest.outcome)
  }

  /** What firing a list invokes: its entries, in order, up to the first
      `None`; the walk returns normally exactly when there is no `None`. */
  lemma {:induction false} DispatchInvokesPrefix(entries: seq<Entry>)
    ensures var d := Dispatch(entries);
      && (forall i :: 0 <= i < |d.invoked| ==> entries[i] == Some(d.invoked[i]))
      && (d.outcome == Returned <==> Callable(entries))
      && (d.outcome.Raised? ==> entries[|d.invoked|] == None)
  {
    if entries != [] && entries[0].Some? {
      var rest := entries[1..];
      DispatchInvokesPrefix(rest);
      assert forall i :: 1 <= i < |entries| ==> entries[i] == rest[i - 1];
      if Callable(rest) {
        assert Callable(entries) by {
          forall i | 0 <= i < |entries| ensures entries[i].Some? {
            if i > 0 { assert entries[i] == rest[i - 1]; }
          }
        }
      }
    }
  }

  /** Firing a list made of two parts: the second part runs only if the
      first returned normally. */
  lemma {:induction false} DispatchAppend(a: seq<Entry>, b: seq<Entry>)
    ensures Dispatch(a + b) ==
      if Dispatch(a).outcome.Raised? then Dispatch(a)
      else Dispatched(Dispatch(a).invoked + Dispatch(b).invoked, Dispatch(b).outcome)
  {
    if a == [] {
      assert a + b == b;
    } else {
      assert (a + b)[0] == a[0];
      assert (a + b)[1..] == a[1..] + b;
      DispatchAppend(a[1..], b);
      match a[0]
      case None =>
      case Some(cb) =>
        var x, y := Dispatch(a[1..]).invoked, Dispatch(b).invoked;
        assert [cb] + (x + y) == ([cb] + x) + y;
    }
  }

  /** Firing an event that has no list, or an emitter on which `on` was
      never called, invokes nothing and returns normally; and that happens
      exactly when the event's list is empty. */
  lemma FireWithoutListIsNoOp(h: Registry, event: string)
    ensures event !in h ==> Dispatch(Handlers(h, event)) == Dispatched([], Returned)
    ensures Dispatch(Handlers(h, event)) == Dispatched([], Returned) <==> Handlers(h, event) == []
  {
  }

  /** Firing a list of one entry. */
  lemma DispatchSingle(entry: Entry)
    ensures Dispatch([entry]) ==
      if entry.None? then Dispatched([], Raised(TypeError)) else Dispatched([entry.value], Returned)
  {
  }

  /** One more iteration of the loop of `fire`: the next entry is called
      after those before it, or raises `TypeError` if it is `None`. */
  lemma DispatchStep(prefix: seq<Entry>, entry: Entry)
    requires Dispatch(prefix).outcome == Returned
    ensures Dispatch(prefix + [entry]) ==
      if entry.None? then Dispatched(Dispatch(prefix).invoked, Raised(TypeError))
      else Dispatched(Dispatch(prefix).invoked + [entry.value], Returned)
  {
    DispatchAppend(prefix, [entry]);
    DispatchSingle(entry);
  }

  /** `on(event, cb)` followed by `fire(event)`: the new callback runs last,
      after everything that ran before it. */
  lemma RegisterThenFire(h: Registry, event: string, cb: CallbackId)
    requires Callable(Handlers(h, event))
    ensures Dispatch(Handlers(Register(h, event, Some(cb)), event)) ==
            Dispatched(Dispatch(Handlers(h, event)).invoked + [cb], Returned)
  {
    DispatchInvokesPrefix(Handlers(h, event));
    DispatchAppend(Handlers(h, event), [Some(cb)]);
    DispatchSingle(Some(cb));
  }

  /** Registering a callback keeps every list of the registry callable. */
  lemma RegisterKeepsCallable(h: Registry, event: string, cb: CallbackId)
    requires AllCallable(h)
    ensures AllCallable(Register(h, event, Some(cb)))
    ensures AllCallable(Touch(h, event))
  {
  }

  /** As written, the decorator form of `on` appends `None`: the next
      `fire(event)` never reaches the decorated function and ends in
      `TypeError`, whatever was registered before. */
  lemma DecoratorAsWrittenFails(h: Registry, event: string)
    ensures Dispatch(Handlers(Register(h, event, None), event)) ==
      if Callable(Handlers(h, event))
      then Dispatched(Dispatch(Handlers(h, event)).invoked, Raised(TypeError))
      else Dispatch(Handlers(h, event))
  {
    DispatchInvokesPrefix(Handlers(h, event));
    DispatchAppend(Handlers(h, event), [None]);
    DispatchSingle(None);
  }

  /** The example of the `on` docstring as written: `my_func1` runs, then
      the entry the decorator appended raises `TypeError`. */
  lemma DocstringExampleAsWritten(f1: CallbackId)
    ensures var h := Register(Register(map[], "some_event", Some(f1)), "some_event", None);
            Dispatch(Handlers(h, "some_event")) == Dispatched([f1], Raised(TypeError))
  {
  }

  /** The same example with the wrapper appending `func`: both functions
      run, in registration order. */
  lemma DocstringExampleIntended(f1: CallbackId, f2: CallbackId)
    ensures var h := Register(Register(map[], "some_event", Some(f1)), "some_event", Some(f2));
            Dispatch(Handlers(h, "some_event")) == Dispatched([f1, f2], Returned)
  {
  }

  class Emitter {
    /** `event_handlers`; an emitter on which `on` was never called has none,
        which every operation treats as the empty map. */
    var handlers: Registry
    /** The callbacks invoked so far, in order: the observable effect of `fire`. */
    ghost var log: seq<CallbackId>

    constructor ()
      ensures handlers == map[] && log == []
    {
      handlers := map[];
      log := [];
    }

    /** `on(event, callback)`: with a callback, append it to `event`'s list;
        without one, create the list and return the decorator. */
    method On(event: string, callback: Option<CallbackId>) returns (wrapper: Option<Wrapper>)
      modifies this
      ensures handlers == OnRegistry(old(handlers), event, callback)
      ensures wrapper == if callback.None? then Some(Wrapper(event)) else None
      ensures log == old(log)
    {
      if event !in handlers {
        handlers := handlers[event := []];
      }
      if callback.None? {
        wrapper := Some(Wrapper(event));
      } else {
        handlers := handlers[event := handlers[event] + [callback]];
        wrapper := None;
      }
    }

    /** Applying the decorator to `func`, as written: it appends the
        `callback` argument of `on`, which is `None`, and returns `func`.
        The list is looked up again, so it raises `KeyError` if the event's
        list has gone since. */
    method Decorate(w: Wrapper, func: CallbackId) returns (r: Option<CallbackId>, outcome: Outcome)
      modifies this
      ensures w.event in old(handlers) ==>
        outcome == Returned && r == Some(func) && handlers == Register(old(handlers), w.event, None)
      ensures w.event !in old(handlers) ==>
        outcome == Raised(KeyError) && r == None && handlers == old(handlers)
      ensures log == old(log)
    {
      if w.event !in handlers {
        return None, Raised(KeyError);
      }
      handlers := handlers[w.event := handlers[w.event] + [None]];
      r, outcome := Some(func), Returned;
    }

    /** Applying the decorator to `func` as the docstring intends: `func`
        itself is appended, exactly as the direct form would. */
    method DecorateIntended(w: Wrapper, func: CallbackId) returns (r: Option<CallbackId>, outcome: Outcome)
      modifies this
      ensures w.event in old(handlers) ==>
        outcome == Returned && r == Some(func) &&
        handlers == OnRegistry(old(handlers), w.event, Some(func))
      ensures w.event !in old(handlers) ==>
        outcome == Raised(KeyError) && r == None && handlers == old(handlers)
      ensures log == old(log)
    {
      if w.event !in handlers {
        return None, Raised(KeyError);
      }
      handlers := handlers[w.event := handlers[w.event] + [Some(func)]];
      r, outcome := Some(func), Returned;
    }

    /** `fire(event)`: call every entry of `event`'s list in order, assuming
        the callbacks do not touch this emitter. */
    method Fire(event: string) returns (outcome: Outcome)
      modifies this
      ensures handlers == old(handlers)
      ensures log == old(log) + Dispatch(Handlers(old(handlers), event)).invoked
      ensures outcome == Dispatch(Handlers(old(handlers), event)).outcome
      ensures event !in old(handlers) ==> log == old(log) && outcome == Returned
    {
      if event !in handlers {
        return Returned;
      }
      var callbacks := handlers[event];
      var i := 0;
      while i < |callbacks|
        invariant 0 <= i <= |callbacks|
        invariant handlers == old(handlers)
        invariant Dispatch(callbacks[..i]).outcome == Returned
        invariant log == old(log) + Dispatch(callbacks[..i]).invoked
      {
        DispatchStep(callbacks[..i], callbacks[i]);
        assert callbacks[..i + 1] == callbacks[..i] + [callbacks[i]];
        if callbacks[i].None? {
          assert callbacks == callbacks[..i + 1] + callbacks[i + 1..];
          DispatchAppend(callbacks[..i + 1], callbacks[i + 1..]);
          return Raised(TypeError);
        }
        log := log + [callbacks[i].value];
        i := i + 1;
      }
      assert callbacks[..i] == callbacks;
      outcome := Returned;
    }

    /** `all_off()`: removes every registration (see README). */
    method AllOff()
      modifies this
      ensures handlers == map[]
      ensures log == old(log)
    {
      handlers := map[];
    }
  }
}
