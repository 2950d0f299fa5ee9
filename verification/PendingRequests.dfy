/** internal/server/server.go: the bounded reply queue of one pending request. */
module PendingRequests {
  import opened Prelude

  const PENDING_QUEUE_CAPACITY := 8

  /** Why `done` was closed. */
  datatype Cause = HandlerReturned | Backpressure | ServerClosed

  /** The value of a pendingRequest: its buffered channel and its once-closed `done`. */
  datatype Pending<M> = Pending(ch: seq<M>, done: Option<Cause>)

  datatype Delivery = Queued | Ignored | Overflow

  function AfterFinish<M>(p: Pending<M>, cause: Cause): Pending<M> {
    if p.done.Some? then p else p.(done := Some(cause))
  }

  function AfterDeliver<M>(p: Pending<M>, m: M): (Pending<M>, Delivery) {
    if p.done.Some? then (p, Ignored)
    else if |p.ch| < PENDING_QUEUE_CAPACITY then (p.(ch := p.ch + [m]), Queued)
    else (AfterFinish(p, Backpressure), Overflow)
  }

  /** The object the server mutates: the same two operations, in place. */
  class PendingRequest<M> {
    var ch: seq<M>
    var closed: bool
    var err: Cause

    ghost function Value(): Pending<M>
      reads this
    {
      Pending(ch, if closed then Some(err) else None)
    }

    constructor ()
      ensures Value() == Pending([], None)
    {
      ch, closed, err := [], false, HandlerReturned;
    }

    method Finish(cause: Cause)
      modifies this
      ensures Value() == AfterFinish(old(Value()), cause)
    {
      if !closed {
        err := cause;
        closed := true;
      }
    }

    method Deliver(m: M) returns (delivered: bool, overflow: bool)
      modifies this
      ensures Value() == AfterDeliver(old(Value()), m).0
      ensures delivered <==> AfterDeliver(old(Value()), m).1.Queued?
      ensures overflow <==> AfterDeliver(old(Value()), m).1.Overflow?
      ensures overflow ==> ch == old(ch) && err == Backpressure
    {
      if closed {
        return false, false;
      }
      if |ch| < PENDING_QUEUE_CAPACITY {
        ch := ch + [m];
        return true, false;
      }
      Finish(Backpressure);
      return false, true;
    }
  }
}
