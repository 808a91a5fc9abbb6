/** The tagged values that flow through publishers, promises and streams. */
module Messages {

  datatype Option<T> = None | Some(value: T)

  /** The result of running a piece of caller-supplied code: it returned, or it threw. */
  datatype Completion<T> = Normal(result: T) | Abrupt(thrown: Throwable)

  /**
   * A Java Throwable. The model keeps it opaque except for the kinds the core
   * itself creates, and it tells an Exception (caught by the handlers) from a
   * Throwable that is not an Exception (rethrown by them).
   */
  datatype Throwable =
    | Exception(message: string)
    | NullPointerException(detail: Option<string>)
    | ClassCastException
    | NegativeArraySizeException
    | PromiseException(message: string, cause: Throwable)
    | Raised(id: nat)
    | Fatal(id: nat)
  {
    /** Whether the handlers' `catch (Exception e)` clauses catch it. */
    predicate IsException() { !Fatal? }
  }

  /** The null dereference the JVM raises without a message. */
  const ImplicitNullPointer: Throwable := NullPointerException(None)

  /** Downstream payload: an item, an error, a batch boundary or a close, each tagged with its origin. */
  datatype Entry<K, V> =
    | Value(from: K, value: V)
    | Error(from: K, error: Throwable)
    | Finish(from: K, level: int)
    | Close(from: K)

  /** Upstream control: request one more item, skip the current batch, or close the channel. */
  datatype Command = Next | Skip | Close

  /** The identity of a registered callback (the Java closure object). */
  type ObserverId = nat
}
