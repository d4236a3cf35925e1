/**
 * The record `Event` (dispatch/events/event.py): a name, the emitter it
 * came from, an optional payload, and a cancellation flag that `cancel`
 * sets only when the event is cancellable. `fire` never builds one, so
 * cancelling has no effect on dispatch.
 */
module EventRecord {
  import opened Common

  /** The value `cancelled` has after `cancel()`. */
  function CancelledAfter(cancellable: bool, cancelled: bool): (r: bool)
    ensures cancellable ==> r
    ensures !cancellable ==> r == cancelled
    ensures cancelled ==> r
  {
    cancellable || cancelled
  }

  /** Cancelling twice is cancelling once. */
  lemma CancelIdempotent(cancellable: bool, cancelled: bool)
    ensures CancelledAfter(cancellable, CancelledAfter(cancellable, cancelled)) ==
            CancelledAfter(cancellable, cancelled)
  {
  }

  /** `D` is the type of the payload; `source` is an opaque reference. */
  class Event<D> {
    var name: string
    var source: object?
    var data: Option<D>
    var cancelled: bool
    var cancellable: bool

    constructor (name: string, source: object?, data: Option<D> := None, cancellable: bool := true)
      ensures this.name == name && this.source == source && this.data == data
      ensures this.cancellable == cancellable
      ensures !cancelled
    {
      this.name := name;
      this.source := source;
      this.data := data;
      this.cancelled := false;
      this.cancellable := cancellable;
    }

    /** Cancel this event if it is cancellable; otherwise nothing changes. */
    method Cancel()
      modifies this`cancelled
      ensures cancelled == CancelledAfter(cancellable, old(cancelled))
    {
      if cancellable {
        cancelled := true;
      }
    }
  }

  /** A new event with the default arguments is cancellable, has no payload
      and is not cancelled; cancelling it (once or twice) sets `cancelled`,
      while a non-cancellable event stays uncancelled. */
  method CancelExample(source: object?) returns (e: Event<int>, f: Event<int>)
    ensures e.name == "some_event" && e.source == source && e.data == None
    ensures e.cancellable && e.cancelled
    ensures f.data == Some(3) && !f.cancellable && !f.cancelled
  {
    e := new Event<int>("some_event", source);
    assert e.cancellable && e.data == None && !e.cancelled;
    e.Cancel();
    e.Cancel();
    f := new Event<int>("other", source, Some(3), false);
    f.Cancel();
  }
}
