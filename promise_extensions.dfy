/**
 * The promise combinators: each one builds new promises and registers
 * closures (see Promises) that set or error them when the source promise
 * delivers. PromiseScenarios follows one delivery through these closures
 * and states what each combinator promises end to end.
 */
module PromiseExtensions {
  import opened Messages
  import opened Observe
  import opened Promises

  /** `promise(value)`: a new promise that already holds `value`. */
  method PromiseOf(value: Val) returns (p: BasePromise)
    ensures fresh(p) && fresh(p.publisher) && p.Valid()
    ensures p.Get() == Some(Value(Null, value))
    ensures p.publisher.observers == None && p.publisher.log == [Done]
  {
    p := new BasePromise();
    p.Set(value);
  }

  /** `error(promise, message)`: error the promise with an Exception carrying `message`, return it. */
  method ErrorWith(p: BasePromise, message: string) returns (self: BasePromise)
    modifies p`fulfilled, p`entry, p.publisher`log
    ensures self == p
    ensures p.Current() == Accept(old(p.Current()), Error(Null, Exception(message)))
    ensures p.publisher.log == old(p.publisher.log) + p.Announced(old(p.Current()), Error(Null, Exception(message)))
    ensures old(p.Valid()) ==> p.Valid()
  {
    p.SetError(Exception(message));
    self := p;
  }

  /** `promise << value` and `value >> promise`: set the value, return the same promise. */
  method Fulfil(p: BasePromise, value: Val) returns (self: BasePromise)
    modifies p`fulfilled, p`entry, p.publisher`log
    ensures self == p
    ensures p.Current() == Accept(old(p.Current()), Value(Null, value))
    ensures p.publisher.log == old(p.publisher.log) + p.Announced(old(p.Current()), Value(Null, value))
    ensures old(p.Valid()) ==> p.Valid()
  {
    p.Set(value);
    self := p;
  }

  /** `map`: a new promise, and a `then` closure on the source that sets it to `mappingFn(value)`. */
  method Map(p: BasePromise, mappingFn: Val -> Completion<Val>) returns (mapped: BasePromise, observer: ThenObserver)
    modifies p`nextObserver, p`hasValueHandler, p.publisher`observers, p.publisher`log
    ensures fresh(mapped) && fresh(mapped.publisher) && mapped.Valid() && mapped.Current() == Unfulfilled
    ensures mapped.publisher.observers == None && mapped.publisher.log == [] && mapped.publisher.publishing
    ensures mapped.nextObserver == 0
    ensures fresh(observer) && observer.Valid() && fresh(observer.task) && fresh(observer.task.publisher)
    ensures observer.task.Current() == Unfulfilled && observer.task.Valid()
    ensures observer.source == p && observer.valueFn == MapInto(mapped, mappingFn) && observer.invocations == []
    ensures observer.task != mapped && observer.task.publisher != mapped.publisher
    ensures observer.subscription == Subscription(old(p.nextObserver))
    ensures p.nextObserver == old(p.nextObserver) + 1 && p.hasValueHandler
    ensures p.publisher.observers == Some(Subscribed(old(p.publisher.observers), old(p.nextObserver)))
    ensures p.publisher.log == old(p.publisher.log) + p.Replayed()
  {
    mapped := new BasePromise();
    var _, obs := p.Then(MapInto(mapped, mappingFn));
    observer := obs;
  }

  /**
   * `flatten`: a new promise, and a `then` closure on the outer promise
   * that, given the inner promise, registers on it an error closure and a
   * value closure passing its outcome on to the new promise.
   */
  method Flatten(p: BasePromise) returns (flat: BasePromise, observer: ThenObserver)
    modifies p`nextObserver, p`hasValueHandler, p.publisher`observers, p.publisher`log
    ensures fresh(flat) && fresh(flat.publisher) && flat.Valid() && flat.Current() == Unfulfilled
    ensures flat.publisher.observers == None && flat.publisher.log == [] && flat.publisher.publishing
    ensures flat.nextObserver == 0
    ensures fresh(observer) && observer.Valid() && fresh(observer.task) && fresh(observer.task.publisher)
    ensures observer.task.Current() == Unfulfilled && observer.task.Valid()
    ensures observer.source == p && observer.valueFn == FlattenInto(flat) && observer.invocations == []
    ensures observer.task != flat && observer.task.publisher != flat.publisher
    ensures observer.subscription == Subscription(old(p.nextObserver))
    ensures p.nextObserver == old(p.nextObserver) + 1 && p.hasValueHandler
    ensures p.publisher.observers == Some(Subscribed(old(p.publisher.observers), old(p.nextObserver)))
    ensures p.publisher.log == old(p.publisher.log) + p.Replayed()
  {
    flat := new BasePromise();
    var _, obs := p.Then(FlattenInto(flat));
    observer := obs;
  }

  /** `thenAsync`: `flatten(map(promise, promiseFn))`. */
  method ThenAsync(p: BasePromise, promiseFn: Val -> Completion<Val>)
    returns (result: BasePromise, mapped: BasePromise, onSource: ThenObserver, onMapped: ThenObserver)
    modifies p`nextObserver, p`hasValueHandler, p.publisher`observers, p.publisher`log
    ensures fresh(mapped) && fresh(result) && fresh(mapped.publisher) && fresh(result.publisher)
    ensures fresh(onSource) && fresh(onSource.task) && fresh(onSource.task.publisher)
    ensures fresh(onMapped) && fresh(onMapped.task) && fresh(onMapped.task.publisher)
    ensures onSource.task.Current() == Unfulfilled && onMapped.task.Current() == Unfulfilled
    ensures onMapped.task != result && onSource.task != result && onSource.task != mapped
    ensures result != mapped && result.publisher != mapped.publisher
    ensures onSource.source == p && onSource.valueFn == MapInto(mapped, promiseFn)
    ensures onMapped.source == mapped && onMapped.valueFn == FlattenInto(result)
    ensures onSource.Valid() && onMapped.Valid()
    ensures result.Current() == Unfulfilled && mapped.Current() == Unfulfilled
    ensures mapped.publisher.observers == Some([0]) && mapped.publisher.log == []
    ensures result.publisher.observers == None && result.publisher.log == []
    ensures p.publisher.observers == Some(Subscribed(old(p.publisher.observers), old(p.nextObserver)))
  {
    mapped, onSource := Map(p, promiseFn);
    result, onMapped := Flatten(mapped);
  }

  /** What `fork` hands back: the array and the two closures, or the exception creating the array threw. */
  datatype Forked = Forked(slots: array<BasePromise?>, onError: ErrorObserver, onValue: ThenObserver)
                  | ForkFailed(thrown: Throwable)

  /**
   * `fork` as the code stands: an array of `amount` slots that is never
   * filled, an error closure and a value closure on the source that walk
   * the array. A negative amount throws before anything is registered.
   */
  method Fork(p: BasePromise, amount: int) returns (forked: Forked)
    modifies p`nextObserver, p`hasValueHandler, p`hasErrorHandler, p.publisher`observers, p.publisher`log
    ensures amount < 0 ==>
      forked == ForkFailed(NegativeArraySizeException)
      && p.publisher.observers == old(p.publisher.observers) && p.nextObserver == old(p.nextObserver)
      && p.hasValueHandler == old(p.hasValueHandler) && p.hasErrorHandler == old(p.hasErrorHandler)
      && p.publisher.log == old(p.publisher.log)
    ensures amount >= 0 ==>
      forked.Forked? && fresh(forked.slots) && forked.slots.Length == amount
      && (forall i :: 0 <= i < amount ==> forked.slots[i] == null)
      && ForkRegistered(p, forked, old(p.publisher.observers), old(p.nextObserver))
      && fresh(forked.onError) && fresh(forked.onValue) && fresh(forked.onValue.task) && fresh(forked.onValue.task.publisher)
      && forked.onValue.task.Current() == Unfulfilled && forked.onError.Valid()
      && (p.entry.None? ==> p.publisher.log == old(p.publisher.log))
      && (p.entry.Some? ==>
            p.publisher.log == old(p.publisher.log)
              + Published(p.publisher.publishing, Some(Subscribed(old(p.publisher.observers), old(p.nextObserver))), p.entry.value)
              + Published(p.publisher.publishing, p.publisher.observers, p.entry.value))
  {
    if amount < 0 {
      return ForkFailed(NegativeArraySizeException);
    }
    var slots := new BasePromise?[amount](_ => null);
    forked := Register(p, slots);
  }

  /** The two fork closures sit on the source, error closure first. */
  ghost predicate ForkRegistered(p: BasePromise, forked: Forked, observers: Option<seq<ObserverId>>, next: ObserverId)
    reads p, p.publisher
    reads if forked.Forked? then {forked.onError, forked.onValue, forked.slots, forked.onValue.task, forked.onValue.source.publisher}
          else {}
  {
    forked.Forked?
    && forked.onError.source == p && forked.onError.errorFn == ForkErrors(forked.slots)
    && forked.onError.subscription == Subscription(next)
    && forked.onValue.source == p && forked.onValue.valueFn == ForkValues(forked.slots)
    && forked.onValue.subscription == Subscription(next + 1)
    && forked.onValue.Valid()
    && p.hasErrorHandler && p.hasValueHandler && p.nextObserver == next + 2
    && p.publisher.observers == Some(Subscribed(Some(Subscribed(observers, next)), next + 1))
  }

  /** Register fork's error closure, then its value closure, on `p`. */
  method Register(p: BasePromise, slots: array<BasePromise?>) returns (forked: Forked)
    requires SlotsDistinct(slots)
    requires forall i :: 0 <= i < slots.Length && slots[i] != null ==> slots[i] != p && slots[i].publisher != p.publisher
    modifies p`nextObserver, p`hasValueHandler, p`hasErrorHandler, p.publisher`observers, p.publisher`log
    ensures forked.Forked? && forked.slots == slots && fresh(forked.onError) && fresh(forked.onValue)
    ensures fresh(forked.onValue.task) && fresh(forked.onValue.task.publisher) && forked.onValue.task.Current() == Unfulfilled
    ensures ForkRegistered(p, forked, old(p.publisher.observers), old(p.nextObserver))
    ensures forked.onError.Valid() && forked.onError.invocations == [] && forked.onValue.invocations == []
    ensures p.entry.None? ==> p.publisher.log == old(p.publisher.log)
    ensures p.entry.Some? ==>
      p.publisher.log == old(p.publisher.log)
        + Published(p.publisher.publishing, Some(Subscribed(old(p.publisher.observers), old(p.nextObserver))), p.entry.value)
        + Published(p.publisher.publishing, p.publisher.observers, p.entry.value)
  {
    var _, onError := p.OnError(ForkErrors(slots));
    ghost var first := p.Replayed();
    ghost var logged := p.publisher.log;
    var _, onValue := p.Then(ForkValues(slots));
    forked := Forked(slots, onError, onValue);
    assert p.publisher.log == logged + p.Replayed();
    assert logged == old(p.publisher.log) + first;
  }

  /** `fork` as evidently intended: every slot holds a new promise of its own. */
  method ForkFilled(p: BasePromise, amount: int) returns (forked: Forked)
    modifies p`nextObserver, p`hasValueHandler, p`hasErrorHandler, p.publisher`observers, p.publisher`log
    ensures amount < 0 ==>
      forked == ForkFailed(NegativeArraySizeException)
      && p.publisher.observers == old(p.publisher.observers) && p.nextObserver == old(p.nextObserver)
      && p.hasValueHandler == old(p.hasValueHandler) && p.hasErrorHandler == old(p.hasErrorHandler)
      && p.publisher.log == old(p.publisher.log)
    ensures amount >= 0 ==>
      forked.Forked? && fresh(forked.slots) && forked.slots.Length == amount
      && FirstNull(forked.slots) == amount && SlotsDistinct(forked.slots)
      && (forall i :: 0 <= i < amount ==>
            fresh(forked.slots[i]) && fresh(forked.slots[i].publisher)
            && forked.slots[i].Valid() && forked.slots[i].Current() == Unfulfilled)
      && ForkRegistered(p, forked, old(p.publisher.observers), old(p.nextObserver))
      && fresh(forked.onError) && fresh(forked.onValue) && fresh(forked.onValue.task) && fresh(forked.onValue.task.publisher)
      && forked.onValue.task.Current() == Unfulfilled && forked.onError.Valid()
      && (p.entry.None? ==> p.publisher.log == old(p.publisher.log))
      && (p.entry.Some? ==>
            p.publisher.log == old(p.publisher.log)
              + Published(p.publisher.publishing, Some(Subscribed(old(p.publisher.observers), old(p.nextObserver))), p.entry.value)
              + Published(p.publisher.publishing, p.publisher.observers, p.entry.value))
  {
    if amount < 0 {
      return ForkFailed(NegativeArraySizeException);
    }
    var slots := new BasePromise?[amount](_ => null);
    for i := 0 to amount
      modifies slots
      invariant forall j :: 0 <= j < i ==>
        slots[j] != null && fresh(slots[j]) && fresh(slots[j].publisher)
        && slots[j].Valid() && slots[j].Current() == Unfulfilled
      invariant forall j, k :: 0 <= j < k < i ==> slots[j] != slots[k] && slots[j].publisher != slots[k].publisher
      invariant forall j :: i <= j < amount ==> slots[j] == null
    {
      var q := new BasePromise();
      slots[i] := q;
    }
    assert FirstNullFrom(slots, 0) == amount by {
      FirstNullOfFull(slots, 0);
    }
    forked := Register(p, slots);
  }

  lemma {:induction false} FirstNullOfFull(slots: array<BasePromise?>, from: nat)
    requires from <= slots.Length
    requires forall i :: from <= i < slots.Length ==> slots[i] != null
    ensures FirstNullFrom(slots, from) == slots.Length
    decreases slots.Length - from
  {
    if from < slots.Length {
      FirstNullOfFull(slots, from + 1);
    }
  }

  /** The closure forwardTo registers through `always`: it applies every entry to the target. */
  class ForwardObserver {
    const source: BasePromise
    const target: BasePromise
    const subscription: Subscription

    constructor (source: BasePromise, target: BasePromise, subscription: Subscription)
      ensures this.source == source && this.target == target && this.subscription == subscription
    {
      this.source := source;
      this.target := target;
      this.subscription := subscription;
    }

    /** Apply the delivered entry to the target; it stays registered. */
    method Handle(e: PromiseEntry)
      modifies target`fulfilled, target`entry, target.publisher`log
      ensures target.Current() == Accept(old(target.Current()), e)
      ensures target.publisher.log == old(target.publisher.log) + target.Announced(old(target.Current()), e)
      ensures old(target.Valid()) ==> target.Valid()
    {
      var _ := target.Apply(Some(e));
    }
  }

  /** `always(fn)` on `p`, as forwardTo uses it: register the forwarding closure, replay, return `p`. */
  method Always(p: BasePromise, target: BasePromise) returns (self: BasePromise, observer: ForwardObserver)
    modifies p`nextObserver, p.publisher`observers, p.publisher`log
    ensures self == p && fresh(observer)
    ensures observer.source == p && observer.target == target && observer.subscription == Subscription(old(p.nextObserver))
    ensures p.nextObserver == old(p.nextObserver) + 1
    ensures p.publisher.observers == Some(Subscribed(old(p.publisher.observers), old(p.nextObserver)))
    ensures p.publisher.log == old(p.publisher.log) + p.Replayed()
  {
    var subscription := p.publisher.OnChange(p.nextObserver);
    p.nextObserver := p.nextObserver + 1;
    observer := new ForwardObserver(p, target, subscription);
    p.Replay();
    self := p;
  }

  /** `forwardTo`: the forwarding closure, then an empty `then` that starts the listening. */
  method ForwardTo(p: BasePromise, existing: BasePromise) returns (forward: ForwardObserver, listener: ThenObserver)
    modifies p`nextObserver, p`hasValueHandler, p.publisher`observers, p.publisher`log
    ensures fresh(forward) && fresh(listener) && listener.Valid()
    ensures forward.source == p && forward.target == existing && forward.subscription == Subscription(old(p.nextObserver))
    ensures listener.source == p && listener.valueFn == Ignore && listener.subscription == Subscription(old(p.nextObserver) + 1)
    ensures fresh(listener.task) && fresh(listener.task.publisher)
    ensures p.publisher.observers ==
      Some(Subscribed(Some(Subscribed(old(p.publisher.observers), old(p.nextObserver))), old(p.nextObserver) + 1))
    ensures p.entry.None? ==> p.publisher.log == old(p.publisher.log)
    ensures p.entry.Some? ==>
      p.publisher.log == old(p.publisher.log)
        + Published(p.publisher.publishing, Some(Subscribed(old(p.publisher.observers), old(p.nextObserver))), p.entry.value)
        + Published(p.publisher.publishing, p.publisher.observers, p.entry.value)
  {
    var self;
    self, forward := Always(p, existing);
    label registered:
    var _, obs := self.Then(Ignore);
    listener := obs;
    assert p.publisher.log == old@registered(p.publisher.log) + p.Replayed();
    assert old@registered(p.publisher.log) == old(p.publisher.log) + old@registered(p.Replayed());
  }
}
