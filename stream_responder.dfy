/**
 * The stream responder: a builder that holds one optional handler per kind
 * of stream event and dispatches each event to its handler when one is set.
 * Handlers are callback identities; the responder keeps the calls it makes
 * to them, in order.
 */
module StreamResponders {
  import opened Messages

  /** The identity of a handler closure. */
  type HandlerId = nat

  /** A call of a handler with its arguments. */
  datatype HandlerCall<I, O> =
    | ValueHandled(handler: HandlerId, from: I, value: O)
    | ErrorHandled(handler: HandlerId, from: I, error: Throwable)
    | FinishHandled(handler: HandlerId, from: I, level: int)
      /** the closed handler, called with null */
    | ClosedHandled(handler: HandlerId)

  class StreamResponder<I, O> {
    /** The stream last given to `setStream`. */
    var stream: object?
    var valueFn: Option<HandlerId>
    var errorFn: Option<HandlerId>
    var finishFn: Option<HandlerId>
    var closedFn: Option<HandlerId>
    /** The handler calls made so far, in order. */
    var calls: seq<HandlerCall<I, O>>

    constructor ()
      ensures stream == null && calls == []
      ensures valueFn == None && errorFn == None && finishFn == None && closedFn == None
    {
      stream := null;
      valueFn, errorFn, finishFn, closedFn := None, None, None, None;
      calls := [];
    }

    /** `each`: set (or, with null, clear) the value handler. */
    method Each(handler: Option<HandlerId>)
      modifies this`valueFn
      ensures valueFn == handler
    {
      valueFn := handler;
    }

    /** `finish`: set the finish handler. */
    method Finish(handler: Option<HandlerId>)
      modifies this`finishFn
      ensures finishFn == handler
    {
      finishFn := handler;
    }

    /** `error`: set the error handler. */
    method Error(handler: Option<HandlerId>)
      modifies this`errorFn
      ensures errorFn == handler
    {
      errorFn := handler;
    }

    /** `closed`: set the closed handler. */
    method Closed(handler: Option<HandlerId>)
      modifies this`closedFn
      ensures closedFn == handler
    {
      closedFn := handler;
    }

    /** `onValue`: call the value handler with the entry's origin and value, if there is one. */
    method OnValue(from: I, value: O)
      modifies this`calls
      ensures valueFn.Some? ==> calls == old(calls) + [ValueHandled(valueFn.value, from, value)]
      ensures valueFn.None? ==> calls == old(calls)
    {
      if valueFn.Some? {
        calls := calls + [ValueHandled(valueFn.value, from, value)];
      }
    }

    /** `onError`: call the error handler, if there is one. */
    method OnError(from: I, t: Throwable)
      modifies this`calls
      ensures errorFn.Some? ==> calls == old(calls) + [ErrorHandled(errorFn.value, from, t)]
      ensures errorFn.None? ==> calls == old(calls)
    {
      if errorFn.Some? {
        calls := calls + [ErrorHandled(errorFn.value, from, t)];
      }
    }

    /** `onFinish`: call the finish handler with the same level, if there is one. */
    method OnFinish(from: I, level: int)
      modifies this`calls
      ensures finishFn.Some? ==> calls == old(calls) + [FinishHandled(finishFn.value, from, level)]
      ensures finishFn.None? ==> calls == old(calls)
    {
      if finishFn.Some? {
        calls := calls + [FinishHandled(finishFn.value, from, level)];
      }
    }

    /** `onClosed`: call the closed handler, if there is one. */
    method OnClosed()
      modifies this`calls
      ensures closedFn.Some? ==> calls == old(calls) + [ClosedHandled(closedFn.value)]
      ensures closedFn.None? ==> calls == old(calls)
    {
      if closedFn.Some? {
        calls := calls + [ClosedHandled(closedFn.value)];
      }
    }

    method SetStream(value: object?)
      modifies this`stream
      ensures GetStream() == value
    {
      stream := value;
    }

    function GetStream(): object?
      reads this
    {
      stream
    }
  }

  /**
   * A responder given two value handlers and an error handler, but no
   * finish or closed handler: the later value handler replaces the earlier,
   * the error handler is untouched by it, and the events without a handler
   * call nothing.
   */
  method LastRegistrationWins<I, O>(first: HandlerId, second: HandlerId, onError: HandlerId,
                                    from: I, v: O, t: Throwable, level: int)
    returns (calls: seq<HandlerCall<I, O>>)
    ensures calls == [ValueHandled(second, from, v), ErrorHandled(onError, from, t)]
  {
    var responder := new StreamResponder<I, O>();
    responder.Each(Some(first));
    responder.Error(Some(onError));
    responder.Each(Some(second));
    responder.OnValue(from, v);
    responder.OnError(from, t);
    responder.OnFinish(from, level);
    responder.OnClosed();
    calls := responder.calls;
  }

  /** Every handler set: each event reaches its own handler, the finish level unchanged; clearing a handler silences its event. */
  method EachEventReachesItsHandler<I, O>(onValue: HandlerId, onError: HandlerId, onFinish: HandlerId,
                                          onClosed: HandlerId, from: I, v: O, t: Throwable, level: int)
    returns (calls: seq<HandlerCall<I, O>>)
    ensures calls == [ValueHandled(onValue, from, v), ErrorHandled(onError, from, t),
                      FinishHandled(onFinish, from, level), ClosedHandled(onClosed)]
  {
    var responder := new StreamResponder<I, O>();
    responder.Each(Some(onValue));
    responder.Error(Some(onError));
    responder.Finish(Some(onFinish));
    responder.Closed(Some(onClosed));
    responder.OnValue(from, v);
    responder.OnError(from, t);
    responder.OnFinish(from, level);
    responder.OnClosed();
    responder.Each(None);
    responder.OnValue(from, v);
    calls := responder.calls;
  }

  /** `getStream` returns the last stream given to `setStream`. */
  method LastStreamIsKept(first: object?, second: object?) returns (kept: object?)
    ensures kept == second
  {
    var responder := new StreamResponder<int, int>();
    responder.SetStream(first);
    responder.SetStream(second);
    kept := responder.GetStream();
  }
}
