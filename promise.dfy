/**
 * `Promise` (dispatch/async/promise.py): an emitter with four fixed
 * channels. `done` fires `success` or `failure`, then `error` when an error
 * is given, then `complete`, and finally clears every registration with
 * `all_off`. An exception raised while firing (an uncallable entry)
 * propagates out of `done`, so the later channels and `all_off` are then
 * skipped.
 */
module Promises {
  import opened Common
  import opened Emitting

  const SuccessChannel: string := "success"
  const FailureChannel: string := "failure"
  const ErrorChannel: string := "error"
  const CompleteChannel: string := "complete"

  /** The error object passed to `done`; it is only tested against None. */
  type ErrorValue = nat

  /** The channels one `done` fires, in order. */
  function DoneChannels(success: bool, hasError: bool): (cs: seq<string>)
    ensures SuccessChannel in cs <==> success
    ensures FailureChannel in cs <==> !success
    ensures ErrorChannel in cs <==> hasError
    ensures cs[0] == (if success then SuccessChannel else FailureChannel)
    ensures cs[|cs| - 1] == CompleteChannel
    ensures |cs| == (if hasError then 3 else 2)
    ensures hasError ==> cs[1] == ErrorChannel
    ensures forall i, j :: 0 <= i < j < |cs| ==> cs[i] != cs[j]
  {
    [if success then SuccessChannel else FailureChannel]
    + (if hasError then [ErrorChannel] else [])
    + [CompleteChannel]
  }

  /** The lists of the given channels, one after the other. */
  function Joined(h: Registry, channels: seq<string>): (r: seq<Entry>)
  {
    if channels == [] then [] else Handlers(h, channels[0]) + Joined(h, channels[1..])
  }

  /** Calling `fire` on each channel in turn, stopping at the first one
      that raises: the same as one walk over the channels' joined lists. */
  function FireChannels(h: Registry, channels: seq<string>): (d: Dispatched)
    ensures d == Dispatch(Joined(h, channels))
  {
    if channels == [] then Dispatched([], Returned)
    else
      var first := Dispatch(Handlers(h, channels[0]));
      DispatchAppend(Handlers(h, channels[0]), Joined(h, channels[1..]));
      if first.outcome.Raised? then first
      else
        var rest := FireChannels(h, channels[1..]);
        Dispatched(first.invoked + rest.invoked, rest.outcome)
  }

  /** What one `done(success, err)` invokes on registry `h`: one walk over
      the list of `success` (or of `failure`), then that of `error` when an
      error is given, then that of `complete`; the list of the other outcome
      channel is never walked. */
  function DoneDispatch(h: Registry, success: bool, hasError: bool): (d: Dispatched)
    ensures d ==
      Dispatch(Handlers(h, if success then SuccessChannel else FailureChannel)
               + (if hasError then Handlers(h, ErrorChannel) else [])
               + Handlers(h, CompleteChannel))
  {
    JoinedDoneChannels(h, success, hasError);
    FireChannels(h, DoneChannels(success, hasError))
  }

  /** The lists `done` walks, joined in the order it fires their channels. */
  lemma JoinedDoneChannels(h: Registry, success: bool, hasError: bool)
    ensures Joined(h, DoneChannels(success, hasError)) ==
      Handlers(h, if success then SuccessChannel else FailureChannel)
      + (if hasError then Handlers(h, ErrorChannel) else [])
      + Handlers(h, CompleteChannel)
  {
    var c0 := if success then SuccessChannel else FailureChannel;
    var cs := DoneChannels(success, hasError);
    var last := Handlers(h, CompleteChannel);
    assert Joined(h, [CompleteChannel]) == last by {
      assert [CompleteChannel][1..] == [];
      assert last + [] == last;
    }
    if hasError {
      assert cs == [c0, ErrorChannel, CompleteChannel];
      assert cs[1..] == [ErrorChannel, CompleteChannel];
      assert [ErrorChannel, CompleteChannel][1..] == [CompleteChannel];
      assert Joined(h, cs) == Handlers(h, c0) + (Handlers(h, ErrorChannel) + last);
    } else {
      assert cs == [c0, CompleteChannel];
      assert cs[1..] == [CompleteChannel];
      assert Joined(h, cs) == Handlers(h, c0) + last;
      assert Handlers(h, c0) + [] == Handlers(h, c0);
    }
  }

  /** `done` step by step: each channel is walked only if the channels
      before it returned normally. */
  lemma DoneInSteps(h: Registry, success: bool, hasError: bool)
    ensures
      var a := Dispatch(Handlers(h, if success then SuccessChannel else FailureChannel));
      var b := Dispatch(if hasError then Handlers(h, ErrorChannel) else []);
      var c := Dispatch(Handlers(h, CompleteChannel));
      DoneDispatch(h, success, hasError) ==
        if a.outcome.Raised? then a
        else if b.outcome.Raised? then Dispatched(a.invoked + b.invoked, b.outcome)
        else Dispatched(a.invoked + b.invoked + c.invoked, c.outcome)
  {
    var first := Handlers(h, if success then SuccessChannel else FailureChannel);
    var errors := if hasError then Handlers(h, ErrorChannel) else [];
    DispatchAppend(first, errors);
    DispatchAppend(first + errors, Handlers(h, CompleteChannel));
  }

  /** When every entry can be called, `done` returns normally and invokes
      exactly the callbacks of its outcome channel, then those of `error`
      when an error is given, then those of `complete`, each in
      registration order. */
  lemma DoneInvokesChannels(h: Registry, success: bool, hasError: bool)
    requires Callable(Handlers(h, if success then SuccessChannel else FailureChannel))
    requires hasError ==> Callable(Handlers(h, ErrorChannel))
    requires Callable(Handlers(h, CompleteChannel))
    ensures DoneDispatch(h, success, hasError) ==
      Dispatched(Dispatch(Handlers(h, if success then SuccessChannel else FailureChannel)).invoked
                 + (if hasError then Dispatch(Handlers(h, ErrorChannel)).invoked else [])
                 + Dispatch(Handlers(h, CompleteChannel)).invoked,
                 Returned)
  {
    var first := Handlers(h, if success then SuccessChannel else FailureChannel);
    var err := if hasError then Handlers(h, ErrorChannel) else [];
    var last := Handlers(h, CompleteChannel);
    DispatchInvokesPrefix(first);
    DispatchInvokesPrefix(err);
    DispatchInvokesPrefix(last);
    assert Dispatch(err).invoked == if hasError then Dispatch(Handlers(h, ErrorChannel)).invoked else [];
    DispatchAppend(first, err);
    DispatchAppend(first + err, last);
  }

  /** On a registry that `done` has cleared, any later `done` invokes
      nothing and returns normally. */
  lemma DoneAfterClearInvokesNothing(success: bool, hasError: bool)
    ensures DoneDispatch(map[], success, hasError) == Dispatched([], Returned)
  {
    assert Handlers(map[], SuccessChannel) == [];
  }

  /** Nothing stops a registration made after `done`: the next `done`
      delivers it. */
  lemma LateRegistrationIsDelivered(cb: CallbackId, hasError: bool)
    ensures DoneDispatch(Register(map[], SuccessChannel, Some(cb)), true, hasError) ==
            Dispatched([cb], Returned)
  {
    var h := Register(map[], SuccessChannel, Some(cb));
    RegisterKeepsCallable(map[], SuccessChannel, cb);
    DoneInvokesChannels(h, true, hasError);
    RegisterThenFire(map[], SuccessChannel, cb);
  }

  /** As written, `success()` called without a callback and then applied
      to a function (`@promise.success()`) leaves `None` on the channel, so
      `done` raises `TypeError` before `complete` fires and before the
      registry is cleared. */
  lemma DecoratedSuccessAsWritten(done: CallbackId, hasError: bool)
    ensures var h := Register(Register(map[], SuccessChannel, None), CompleteChannel, Some(done));
            DoneDispatch(h, true, hasError) == Dispatched([], Raised(TypeError))
  {
  }

  /** A proof step of `Done`: regrouping the log after the second and third
      `fire`. */
  lemma Associative(x: seq<CallbackId>, y: seq<CallbackId>, z: seq<CallbackId>)
    ensures x + y + z == x + (y + z)
  {
  }

  class Promise {
    /** The emitter this promise extends. */
    const emitter: Emitter

    constructor ()
      ensures fresh(emitter)
      ensures emitter.handlers == map[] && emitter.log == []
    {
      emitter := new Emitter();
    }

    /** `done(success, err)`: fire the outcome channel, `error` if `err` is
        not None, and `complete`, then clear every registration. */
    method Done(success: bool := true, err: Option<ErrorValue> := None) returns (outcome: Outcome)
      modifies emitter
      ensures var d := DoneDispatch(old(emitter.handlers), success, err.Some?);
        emitter.log == old(emitter.log) + d.invoked && outcome == d.outcome
      ensures emitter.handlers ==
        if outcome == Returned then map[] else old(emitter.handlers)
    {
      ghost var h := emitter.handlers;
      ghost var a := Dispatch(Handlers(h, if success then SuccessChannel else FailureChannel));
      ghost var b := Dispatch(if err.Some? then Handlers(h, ErrorChannel) else []);
      ghost var c := Dispatch(Handlers(h, CompleteChannel));
      ghost var d := DoneDispatch(h, success, err.Some?);
      ghost var start := emitter.log;
      ghost var ab := a.invoked + b.invoked;
      DoneInSteps(h, success, err.Some?);
      if success {
        outcome := emitter.Fire(SuccessChannel);
      } else {
        outcome := emitter.Fire(FailureChannel);
      }
      if outcome.Raised? {
        assert d == a;
        return;
      }
      if err.Some? {
        outcome := emitter.Fire(ErrorChannel);
        if outcome.Raised? {
          assert d == Dispatched(ab, b.outcome);
          Associative(start, a.invoked, b.invoked);
          return;
        }
        Associative(start, a.invoked, b.invoked);
      } else {
        assert b == Dispatched([], Returned);
        assert ab == a.invoked;
      }
      assert emitter.log == start + ab;
      outcome := emitter.Fire(CompleteChannel);
      assert d == Dispatched(ab + c.invoked, c.outcome);
      Associative(start, ab, c.invoked);
      if outcome.Raised? {
        return;
      }
      emitter.AllOff();
    }

    /** `success(callback)`: `on('success', callback)`. */
    method Success(callback: Option<CallbackId> := None) returns (wrapper: Option<Wrapper>)
      modifies emitter
      ensures emitter.handlers == OnRegistry(old(emitter.handlers), SuccessChannel, callback)
      ensures wrapper == if callback.None? then Some(Wrapper(SuccessChannel)) else None
      ensures emitter.log == old(emitter.log)
    {
      wrapper := emitter.On(SuccessChannel, callback);
    }

    /** `failure(callback)`: `on('failure', callback)`. */
    method Failure(callback: Option<CallbackId> := None) returns (wrapper: Option<Wrapper>)
      modifies emitter
      ensures emitter.handlers == OnRegistry(old(emitter.handlers), FailureChannel, callback)
      ensures wrapper == if callback.None? then Some(Wrapper(FailureChannel)) else None
      ensures emitter.log == old(emitter.log)
    {
      wrapper := emitter.On(FailureChannel, callback);
    }

    /** `error(callback)`: `on('error', callback)`. */
    method Error(callback: Option<CallbackId> := None) returns (wrapper: Option<Wrapper>)
      modifies emitter
      ensures emitter.handlers == OnRegistry(old(emitter.handlers), ErrorChannel, callback)
      ensures wrapper == if callback.None? then Some(Wrapper(ErrorChannel)) else None
      ensures emitter.log == old(emitter.log)
    {
      wrapper := emitter.On(ErrorChannel, callback);
    }

    /** `complete(callback)`: `on('complete', callback)`. */
    method Complete(callback: Option<CallbackId> := None) returns (wrapper: Option<Wrapper>)
      modifies emitter
      ensures emitter.handlers == OnRegistry(old(emitter.handlers), CompleteChannel, callback)
      ensures wrapper == if callback.None? then Some(Wrapper(CompleteChannel)) else None
      ensures emitter.log == old(emitter.log)
    {
      wrapper := emitter.On(CompleteChannel, callback);
    }
  }

  /** One callback on each of `success`, `failure` and `complete`: a
      successful `done` invokes the `success` and `complete` callbacks, a
      failed one the `failure` and `complete` callbacks, in that order. */
  lemma CompleteScenario(s: CallbackId, f: CallbackId, c: CallbackId, success: bool)
    ensures
      var h := Register(Register(Register(map[], SuccessChannel, Some(s)), FailureChannel, Some(f)),
                        CompleteChannel, Some(c));
      DoneDispatch(h, success, false) == Dispatched([if success then s else f, c], Returned)
  {
    var h1 := Register(map[], SuccessChannel, Some(s));
    var h2 := Register(h1, FailureChannel, Some(f));
    var h := Register(h2, CompleteChannel, Some(c));
    var x := if success then s else f;
    assert Handlers(h, if success then SuccessChannel else FailureChannel) == [Some(x)];
    assert Handlers(h, CompleteChannel) == [Some(c)];
    assert [Some(x)] + [] + [Some(c)] == [Some(x)] + [Some(c)];
    DispatchSingle(Some(x));
    DispatchStep([Some(x)], Some(c));
  }

  /** The scenario of the promise tests (`@promise.success` without
      parentheses passes the function itself, the direct form), completed
      three times (twice
      successfully, then as a failure): only the first `done` reaches any
      callback. */
  method CompleteOnceExample() returns (p: Promise)
    ensures p.emitter.log == [1, 3]
    ensures p.emitter.handlers == map[]
  {
    p := new Promise();
    var _ := p.Success(Some(1));
    var _ := p.Failure(Some(2));
    var _ := p.Complete(Some(3));
    CompleteScenario(1, 2, 3, true);
    var o := p.Done();
    assert p.emitter.log == [1, 3];
    DoneAfterClearInvokesNothing(true, false);
    o := p.Done();
    assert p.emitter.log == [1, 3];
    DoneAfterClearInvokesNothing(false, false);
    o := p.Done(false);
    assert p.emitter.log == [1, 3] && o == Returned;
  }
}
