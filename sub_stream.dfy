/**
 * Sub streams: the streams that stream operations create from a parent.
 * Every sub stream of a chain shares the chain's input, the root stream;
 * pushing a value, an error or a finish into any sub stream forwards it to
 * that input, while the keyed variants build an entry and apply it to the
 * sub stream itself.
 *
 * What `apply` does with an entry belongs to the stream base class, which
 * is not part of this model: a sub stream keeps the entries applied to it,
 * in order, and the root keeps the calls forwarded to it, in order.
 */
module SubStreams {
  import opened Messages

  /** A call a sub stream forwards to its input. */
  datatype InputCall<I> =
    | Pushed(value: I)
    | Errored(error: Throwable)
      /** `finish()`, which leaves the level to the input */
    | Finished
    | FinishedAt(level: int)

  /** What a sub stream constructor reads from its parent: its input and its concurrency setting. */
  datatype Parent<I> = Parent(input: Root<I>, concurrency: Option<int>)

  /** The root stream of a chain: it is its own input. */
  class Root<I> {
    /** The concurrency setting; None where the stream has none. */
    var concurrency: Option<int>
    /** The calls forwarded to this stream, in order. */
    var received: seq<InputCall<I>>

    constructor (concurrency: Option<int>)
      ensures this.concurrency == concurrency && received == []
    {
      this.concurrency := concurrency;
      received := [];
    }

    /** This stream seen as a parent: the input of a chain started here is the root itself. */
    function AsParent(): (p: Parent<I>)
      reads this
      ensures p.input == this && p.concurrency == concurrency
    {
      Parent(this, concurrency)
    }

    method Push(value: I)
      modifies this`received
      ensures received == old(received) + [Pushed(value)]
    {
      received := received + [Pushed(value)];
    }

    method Error(t: Throwable)
      modifies this`received
      ensures received == old(received) + [Errored(t)]
    {
      received := received + [Errored(t)];
    }

    method Finish()
      modifies this`received
      ensures received == old(received) + [Finished]
    {
      received := received + [Finished];
    }

    method FinishLevel(level: int)
      modifies this`received
      ensures received == old(received) + [FinishedAt(level)]
    {
      received := received + [FinishedAt(level)];
    }
  }

  class SubStream<I, O> {
    /** The shared input of the chain, fixed at construction. */
    const input: Root<I>
    /** The concurrency setting; None where the stream has none of its own. */
    var concurrency: Option<int>
    /** The queue size given at construction; None means the base class's default. */
    const maxSize: Option<int>
    /** The entries applied to this stream, in order. */
    var applied: seq<Entry<I, O>>

    /** A sub stream of `parent`: the parent's input, and its concurrency copied. */
    constructor (parent: Parent<I>)
      ensures input == parent.input && concurrency == parent.concurrency
      ensures maxSize == None && applied == []
    {
      input := parent.input;
      concurrency := parent.concurrency;
      maxSize := None;
      applied := [];
    }

    /** A sub stream of `parent` with its own queue size: the parent's input, but no concurrency copied. */
    constructor WithMaxSize(parent: Parent<I>, maxSize: int)
      ensures input == parent.input && concurrency == None
      ensures this.maxSize == Some(maxSize) && applied == []
    {
      input := parent.input;
      concurrency := None;
      this.maxSize := Some(maxSize);
      applied := [];
    }

    function GetInput(): Root<I>
    {
      input
    }

    /** This stream seen as a parent of a further sub stream. */
    function AsParent(): (p: Parent<I>)
      reads this
      ensures p.input == GetInput() && p.concurrency == concurrency
    {
      Parent(input, concurrency)
    }

    /** `push(value)`: forwarded to the input; nothing happens here. */
    method Push(value: I)
      modifies input`received
      ensures input.received == old(input.received) + [Pushed(value)]
    {
      input.Push(value);
    }

    /** `error(t)`: forwarded to the input. */
    method Error(t: Throwable)
      modifies input`received
      ensures input.received == old(input.received) + [Errored(t)]
    {
      input.Error(t);
    }

    /** `finish()`: forwarded to the input. */
    method Finish()
      modifies input`received
      ensures input.received == old(input.received) + [Finished]
    {
      input.Finish();
    }

    /** `finish(level)`: forwarded to the input. */
    method FinishLevel(level: int)
      modifies input`received
      ensures input.received == old(input.received) + [FinishedAt(level)]
    {
      input.FinishLevel(level);
    }

    /** `push(from, value)`: apply a value entry to this stream. */
    method PushFrom(from: I, value: O)
      modifies this`applied
      ensures applied == old(applied) + [Value(from, value)]
    {
      applied := applied + [Value(from, value)];
    }

    /** `error(from, t)`: apply an error entry to this stream. */
    method ErrorFrom(from: I, t: Throwable)
      modifies this`applied
      ensures applied == old(applied) + [Entry.Error(from, t)]
    {
      applied := applied + [Entry.Error(from, t)];
    }

    /** `finish(from)`: apply a finish of level 0 to this stream. */
    method FinishFrom(from: I)
      modifies this`applied
      ensures applied == old(applied) + [Entry.Finish(from, 0)]
    {
      applied := applied + [Entry.Finish(from, 0)];
    }

    /** `finish(from, level)`: apply a finish of the given level to this stream. */
    method FinishFromLevel(from: I, level: int)
      modifies this`applied
      ensures applied == old(applied) + [Entry.Finish(from, level)]
    {
      applied := applied + [Entry.Finish(from, level)];
    }
  }

  /**
   * A chain root, a sub stream of the root, and a sub stream of that with
   * its own queue size: both sub streams have the root as input, only the
   * first copies the root's concurrency, and whatever is pushed into either
   * reaches the root unchanged and in order while neither applies anything
   * to itself.
   */
  method ChainForwardsToRoot<I, O>(concurrency: int, maxSize: int, v: I, t: Throwable, level: int)
    returns (received: seq<InputCall<I>>, applied: seq<Entry<I, O>>,
             sharedInput: bool, firstConcurrency: Option<int>, secondConcurrency: Option<int>)
    ensures received == [Pushed(v), Errored(t), Finished, FinishedAt(level)]
    ensures applied == []
    ensures sharedInput
    ensures firstConcurrency == Some(concurrency) && secondConcurrency == None
  {
    var root := new Root<I>(Some(concurrency));
    var first := new SubStream<I, O>(root.AsParent());
    var second := new SubStream<I, O>.WithMaxSize(first.AsParent(), maxSize);
    second.Push(v);
    first.Error(t);
    second.Finish();
    second.FinishLevel(level);
    received := root.received;
    applied := first.applied + second.applied;
    sharedInput := first.GetInput() == root && second.GetInput() == root;
    firstConcurrency := first.concurrency;
    secondConcurrency := second.concurrency;
  }

  /**
   * The keyed calls apply exactly the entries they name to the sub stream
   * itself, `finish(from)` being a finish of level 0, and send nothing to
   * the input.
   */
  method KeyedCallsApplyEntries<I, O>(from: I, v: O, t: Throwable, level: int)
    returns (applied: seq<Entry<I, O>>, received: seq<InputCall<I>>)
    ensures applied == [Value(from, v), Error(from, t), Finish(from, 0), Finish(from, level)]
    ensures received == []
  {
    var root := new Root<I>(None);
    var stream := new SubStream<I, O>(root.AsParent());
    stream.PushFrom(from, v);
    stream.ErrorFrom(from, t);
    stream.FinishFrom(from);
    stream.FinishFromLevel(from, level);
    applied := stream.applied;
    received := root.received;
  }
}
