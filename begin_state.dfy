/**
  The pieces of the begin stages' per-entity state that the NSE and NS event factories share:
  the entity's connection state, the error channel a trigger returns, and the cancel context a
  trigger may be given.
 */
module BeginState {
  import opened Wrappers
  import opened Api

  /** connectionState: a factory starts out not yet established. */
  datatype ConnectionState = Initial | Established | Closed

  /** `make(chan error, 1)`: a buffered channel of capacity one. */
  class ErrorChannel {
    var buffer: seq<Option<Error>>
    var closed: bool

    /** A fresh, open, empty channel. */
    constructor ()
      ensures buffer == [] && !closed
    {
      buffer := [];
      closed := false;
    }

    /** Whether the channel is as `make` left it. */
    predicate Fresh()
      reads this
    {
      buffer == [] && !closed
    }

    /** `ch <- err` on a channel with room for the value. */
    method Send(err: Option<Error>)
      requires !closed && |buffer| < 1
      modifies this
      ensures buffer == old(buffer) + [err] && !closed
    {
      buffer := buffer + [err];
    }

    /** `close(ch)`. */
    method Close()
      requires !closed
      modifies this
      ensures closed && buffer == old(buffer)
    {
      closed := true;
    }
  }

  /** The `Done()` state of a cancellable context. */
  class CancelToken {
    var done: bool

    constructor ()
      ensures !done
    {
      done := false;
    }

    /** The context's cancel function. */
    method Cancel()
      modifies this
      ensures done
    {
      done := true;
    }
  }

  /** The cancel context of a trigger; the default is context.Background(), which is never done. */
  datatype CancelContext = Background | Cancellable(token: CancelToken)

  /** Whether `<-cancelCtx.Done()` is ready when the task runs. */
  predicate IsDone(c: CancelContext)
    reads if c.Cancellable? then {c.token} else {}
  {
    c.Cancellable? && c.token.done
  }
}
