/**
 * End-to-end behaviour of promises and their combinators: each method
 * builds its own promises, makes one delivery, runs the closures the
 * publishers' logs say are notified (thenAsync, where a replay notifies
 * them, says so), and states what comes out.
 */
module PromiseScenarios {
  import opened Messages
  import opened Observe
  import opened Promises
  import opened PromiseExtensions

  /** A second value is dropped; a later error overwrites the value and is published again. */
  method FulfilOnce(a: Val, b: Val, t: Throwable)
    returns (afterSecondSet: Option<PromiseEntry>, afterError: Option<PromiseEntry>, ghost log: seq<Notification<PromiseEntry>>)
    ensures afterSecondSet == Some(Value(Null, a))
    ensures afterError == Some(Error(Null, t))
    ensures log == [Notify(0, Value(Null, a)), Done, Notify(0, Error(Null, t)), Done]
  {
    var p := new BasePromise();
    var _ := p.publisher.OnChange(0);
    p.Set(a);
    p.Set(b);
    afterSecondSet := p.Get();
    p.SetError(t);
    afterError := p.Get();
    log := p.publisher.log;
  }

  /**
   * map: the value the source is set to reaches the `then` closure, which
   * sets the mapped promise to the mapping function's result and
   * completes its task; if the mapping function throws an Exception, the
   * mapped promise stays unfulfilled, the task gets the exception and the
   * source is errored with a PromiseException wrapping it.
   */
  method MapSetsMappedValue(v: Val, mappingFn: Val -> Completion<Val>)
    returns (mapped: Option<PromiseEntry>, task: Option<PromiseEntry>, source: Option<PromiseEntry>,
             ghost delivered: seq<Notification<PromiseEntry>>)
    ensures delivered == [Notify(0, Value(Null, v)), Done]
    ensures mappingFn(v).Normal? ==>
      mapped == Some(Value(Null, mappingFn(v).result)) && task == Some(Value(Null, Flag(true)))
      && source == Some(Value(Null, v))
    ensures mappingFn(v).Abrupt? && mappingFn(v).thrown.IsException() ==>
      mapped == None && task == Some(Error(Null, mappingFn(v).thrown))
      && source == Some(Error(Null, PromiseException(ThenFailure, mappingFn(v).thrown)))
    ensures mappingFn(v).Abrupt? && !mappingFn(v).thrown.IsException() ==>
      mapped == None && task == None && source == Some(Value(Null, v))
  {
    var p := new BasePromise();
    var q, observer := Map(p, mappingFn);
    p.Set(v);
    delivered := p.publisher.log;
    var _, _ := observer.Handle(Value(Null, v));
    mapped, task, source := q.Get(), observer.task.Get(), p.Get();
  }

  /**
   * then with a caller's value function: the value takes the closure off
   * the source's list and completes the task, unless the function throws
   * an Exception, which errors the source with a PromiseException and the
   * task with the exception itself. A Throwable that is no Exception
   * escapes and leaves both promises as they were.
   */
  method ThenRunsValueFn(v: Val, behaviour: (Val, Val) -> Option<Throwable>)
    returns (task: Option<PromiseEntry>, source: Option<PromiseEntry>, escaped: Option<Throwable>,
             listeners: seq<ObserverId>)
    ensures listeners == []
    ensures behaviour(Null, v).None? ==>
      task == Some(Value(Null, Flag(true))) && source == Some(Value(Null, v)) && escaped == None
    ensures behaviour(Null, v).Some? && behaviour(Null, v).value.IsException() ==>
      task == Some(Error(Null, behaviour(Null, v).value)) && escaped == None
      && source == Some(Error(Null, PromiseException(ThenFailure, behaviour(Null, v).value)))
    ensures behaviour(Null, v).Some? && !behaviour(Null, v).value.IsException() ==>
      task == None && source == Some(Value(Null, v)) && escaped == behaviour(Null, v)
  {
    var p := new BasePromise();
    var t, observer := p.Then(UserValueFn(behaviour));
    p.Set(v);
    var spawned;
    escaped, spawned := observer.Handle(Value(Null, v));
    task, source, listeners := t.Get(), p.Get(), Listeners(p.publisher.observers);
  }

  /** then on an error: the task gets the error and the closure stays on the list. */
  method ThenPassesErrorOn(t: Throwable, behaviour: (Val, Val) -> Option<Throwable>)
    returns (task: Option<PromiseEntry>, listeners: seq<ObserverId>)
    ensures task == Some(Error(Null, t))
    ensures listeners == [0]
  {
    var p := new BasePromise();
    var q, observer := p.Then(UserValueFn(behaviour));
    p.SetError(t);
    var _, _ := observer.Handle(Error(Null, t));
    task, listeners := q.Get(), Listeners(p.publisher.observers);
  }

  /**
   * onError: returns the promise itself; an error takes the closure off the
   * list and runs the error function, whose Exception is only reported and
   * whose other Throwables escape; a value leaves the closure registered.
   */
  method OnErrorRunsErrorFn(t: Throwable, v: Val, behaviour: (Val, Throwable) -> Option<Throwable>)
    returns (same: bool, escaped: Option<Throwable>, afterValue: seq<ObserverId>, afterError: seq<ObserverId>)
    ensures same
    ensures escaped == if behaviour(Null, t).Some? && !behaviour(Null, t).value.IsException() then behaviour(Null, t) else None
    ensures afterValue == [0] && afterError == []
  {
    var p := new BasePromise();
    var self, observer := p.OnError(UserErrorFn(behaviour));
    same := self == p;
    p.Set(v);
    var _ := observer.Handle(Value(Null, v));
    afterValue := Listeners(p.publisher.observers);
    p.SetError(t);
    escaped := observer.Handle(Error(Null, t));
    afterError := Listeners(p.publisher.observers);
  }

  /** A closure registered after the value arrived is handed the value at once (late subscription). */
  method MapReplaysToLateSubscriber(v: Val, mappingFn: Val -> Completion<Val>)
    returns (mapped: Option<PromiseEntry>, ghost delivered: seq<Notification<PromiseEntry>>)
    ensures delivered == [Done, Notify(0, Value(Null, v)), Done]
    ensures mapped == if mappingFn(v).Normal? then Some(Value(Null, mappingFn(v).result)) else None
  {
    var p := new BasePromise();
    p.Set(v);
    var q, observer := Map(p, mappingFn);
    delivered := p.publisher.log;
    var _, _ := observer.Handle(Value(Null, v));
    mapped := q.Get();
  }

  twostate predicate FreshSpawned(new spawned: Spawned)
  {
    spawned.InnerListeners? ==>
      fresh(spawned.onError) && fresh(spawned.onValue) && fresh(spawned.onValue.task) && fresh(spawned.onValue.task.publisher)
  }

  /** The closures flatten registers on an inner promise that already holds `e`, or is still unfulfilled when `e` is None. */
  method FlattenInner(e: Option<PromiseEntry>) returns (flat: BasePromise, inner: BasePromise, spawned: Spawned)
    ensures fresh(flat) && fresh(inner) && flat != inner && fresh(flat.publisher) && fresh(inner.publisher)
    ensures FreshSpawned(spawned)
    ensures spawned.InnerListeners? && spawned.onError.source == inner && spawned.onValue.source == inner
    ensures spawned.onError.errorFn == ErrorInto(flat) && spawned.onValue.valueFn == SetInto(flat)
    ensures spawned.onError.Valid() && spawned.onValue.Valid() && flat.Current() == Unfulfilled
    ensures inner.Current() == (if e.Some? then State(true, e) else Unfulfilled) && flat.Valid() && inner.Valid()
  {
    inner := new BasePromise();
    if e.Some? {
      var _ := inner.Apply(e);
    }
    var observer;
    flat, observer := FlattenSetTo(inner);
    var _, s := observer.Handle(Value(Null, PromiseRef(inner)));
    spawned := s;
  }

  /** A flattened new promise whose outer promise was set to `inner`, up to the closure's run. */
  method FlattenSetTo(inner: BasePromise) returns (flat: BasePromise, observer: ThenObserver)
    ensures fresh(flat) && fresh(flat.publisher) && flat.Valid() && flat.Current() == Unfulfilled
    ensures flat.nextObserver == 0 && flat.publisher.observers == None
    ensures fresh(observer) && fresh(observer.source) && fresh(observer.source.publisher)
    ensures fresh(observer.task) && fresh(observer.task.publisher) && observer.task != flat
    ensures observer.Valid() && observer.valueFn == FlattenInto(flat)
  {
    var outer := new BasePromise();
    flat, observer := Flatten(outer);
    outer.Set(PromiseRef(inner));
  }

  /** flatten: the inner promise's value is set on the flattened promise. */
  method FlattenSetsInnerValue(w: Val) returns (flat: Option<PromiseEntry>)
    ensures flat == Some(Value(Null, w))
  {
    var f, inner, spawned := FlattenInner(Some(Value(Null, w)));
    var _ := spawned.onError.Handle(Value(Null, w));
    var _, _ := spawned.onValue.Handle(Value(Null, w));
    flat := f.Get();
  }

  /** flatten: the inner promise's error is passed on as an error of the flattened promise. */
  method FlattenForwardsInnerError(t: Throwable) returns (flat: Option<PromiseEntry>)
    ensures flat == Some(Error(Null, t))
  {
    var f, inner, spawned := FlattenInner(Some(Error(Null, t)));
    var _ := spawned.onError.Handle(Error(Null, t));
    var _, _ := spawned.onValue.Handle(Error(Null, t));
    flat := f.Get();
  }

  /** flatten: an inner promise set only after flatten has registered on it passes its value on. */
  method FlattenSetsLaterInnerValue(w: Val) returns (flat: Option<PromiseEntry>, innerEntry: Option<PromiseEntry>)
    ensures flat == Some(Value(Null, w)) && innerEntry == Some(Value(Null, w))
  {
    var f, inner, spawned := FlattenInner(None);
    inner.Set(w);
    var _ := spawned.onError.Handle(Value(Null, w));
    var _, _ := spawned.onValue.Handle(Value(Null, w));
    flat, innerEntry := f.Get(), inner.Get();
  }

  /** flatten: an inner promise errored only after flatten has registered on it passes its error on. */
  method FlattenForwardsLaterInnerError(t: Throwable) returns (flat: Option<PromiseEntry>, innerEntry: Option<PromiseEntry>)
    ensures flat == Some(Error(Null, t)) && innerEntry == Some(Error(Null, t))
  {
    var f, inner, spawned := FlattenInner(None);
    inner.SetError(t);
    var _ := spawned.onError.Handle(Error(Null, t));
    var _, _ := spawned.onValue.Handle(Error(Null, t));
    flat, innerEntry := f.Get(), inner.Get();
  }

  /**
   * thenAsync: the promise the function returns is waited for, and its value
   * is the result. That promise already holds `w` when flatten registers on
   * it, so the replays hand `w` to both closures at once; their call is taken
   * from that replay here rather than read off the log.
   */
  method ThenAsyncSetsReturnedPromisesValue(v: Val, w: Val) returns (result: Option<PromiseEntry>)
    ensures result == Some(Value(Null, w))
  {
    var r, spawned := ThenAsyncFlattened(v, w);
    var _ := spawned.onError.Handle(Value(Null, w));
    var _, _ := spawned.onValue.Handle(Value(Null, w));
    result := r.Get();
  }

  /**
   * thenAsync up to the inner closures: the flatten closure has run on the
   * promise the function returned, which already holds `w`, and has put an
   * error closure and a value closure on it that target the result.
   */
  method ThenAsyncFlattened(v: Val, w: Val) returns (result: BasePromise, spawned: Spawned)
    ensures fresh(result) && fresh(result.publisher) && result.Valid() && result.Current() == Unfulfilled
    ensures spawned.InnerListeners?
    ensures fresh(spawned.onError) && fresh(spawned.onError.source) && fresh(spawned.onError.source.publisher)
    ensures spawned.onError.Valid() && spawned.onError.errorFn == ErrorInto(result)
    ensures fresh(spawned.onValue) && spawned.onValue.source == spawned.onError.source
    ensures fresh(spawned.onValue.task) && fresh(spawned.onValue.task.publisher)
    ensures spawned.onValue.Valid() && spawned.onValue.valueFn == SetInto(result)
    ensures spawned.onValue.source.Current() == State(true, Some(Value(Null, w)))
  {
    var returned := PromiseOf(w);
    var onMapped;
    result, onMapped := ThenAsyncMapped(v, returned);
    var _, s := onMapped.Handle(Value(Null, PromiseRef(returned)));
    spawned := s;
  }

  /**
   * thenAsync up to the mapped promise: once the source is set and its
   * map closure has run, the function's promise is the mapped promise's value.
   */
  method ThenAsyncMapped(v: Val, returned: BasePromise) returns (result: BasePromise, onMapped: ThenObserver)
    ensures fresh(result) && fresh(result.publisher) && result.Valid() && result.Current() == Unfulfilled
    ensures fresh(onMapped) && fresh(onMapped.source) && fresh(onMapped.source.publisher)
    ensures fresh(onMapped.task) && fresh(onMapped.task.publisher) && onMapped.task != result
    ensures onMapped.Valid() && onMapped.valueFn == FlattenInto(result)
    ensures onMapped.source.Current() == State(true, Some(Value(Null, PromiseRef(returned))))
  {
    var p := new BasePromise();
    var mapped, onSource;
    result, mapped, onSource, onMapped := ThenAsync(p, _ => Normal(PromiseRef(returned)));
    ghost var before := result.Current();
    p.Set(v);
    RunMapClosure(onSource, v);
    assert result.Current() == before;
  }

  /** The map closure handed `v`: its target takes the mapping function's result, if there is one. */
  method RunMapClosure(observer: ThenObserver, v: Val)
    requires observer.Valid() && observer.valueFn.MapInto?
    modifies observer`invocations, observer.source`fulfilled, observer.source`entry
    modifies observer.source.publisher`observers, observer.source.publisher`log
    modifies observer.task`fulfilled, observer.task`entry, observer.task.publisher`log
    modifies observer.valueFn.target, observer.valueFn.target.publisher
    ensures observer.valueFn.mappingFn(v).Normal? ==>
      observer.valueFn.target.Current() == Accept(old(observer.valueFn.target.Current()), Value(Null, observer.valueFn.mappingFn(v).result))
    ensures observer.valueFn.target.publisher.observers == old(observer.valueFn.target.publisher.observers)
  {
    var _, _ := observer.Handle(Value(Null, v));
  }

  /** forwardTo: the entry the source receives is applied to the existing promise. */
  method ForwardToAppliesEntry(e: PromiseEntry) returns (forwarded: Option<PromiseEntry>, ghost delivered: seq<Notification<PromiseEntry>>)
    ensures delivered == [Notify(0, e), Notify(1, e), Done]
    ensures forwarded == Some(e)
  {
    var p := new BasePromise();
    var existing := new BasePromise();
    var forward, _ := ForwardTo(p, existing);
    var _ := p.Apply(Some(e));
    delivered := p.publisher.log;
    forward.Handle(e);
    forwarded := existing.Get();
  }

  /** `error(promise, message)` on a new promise leaves it holding an Exception with that message. */
  method ErrorWithMessage(message: string) returns (entry: Option<PromiseEntry>)
    ensures entry == Some(Error(Null, Exception(message)))
  {
    var p := new BasePromise();
    var self := ErrorWith(p, message);
    entry := self.Get();
  }

  /** `<<` on a promise already holding a value changes nothing, and returns that promise. */
  method FulfilIsDroppedOnFulfilled(a: Val, b: Val) returns (entry: Option<PromiseEntry>, same: bool)
    ensures entry == Some(Value(Null, a)) && same
  {
    var p := PromiseOf(a);
    var self := Fulfil(p, b);
    entry, same := self.Get(), self == p;
  }

  /** fork with a negative amount throws. */
  method ForkNegative(amount: int) returns (thrown: Option<Throwable>)
    requires amount < 0
    ensures thrown == Some(NegativeArraySizeException)
  {
    var p := new BasePromise();
    var forked := Fork(p, amount);
    thrown := if forked.ForkFailed? then Some(forked.thrown) else None;
  }

  /**
   * fork as the code stands, given a value: the value closure throws a
   * NullPointerException on the first (empty) slot; the closure catches it,
   * so the source is errored with a PromiseException and the task with the
   * NullPointerException, and no slot holds anything. The PromiseException
   * reaches the error closure, still registered, which throws a
   * NullPointerException on the same empty slot; being an Exception, it is
   * only reported.
   */
  method ForkAsWrittenErrorsSource(amount: int, v: Val)
    returns (source: Option<PromiseEntry>, task: Option<PromiseEntry>, slots: seq<BasePromise?>,
             errorEscaped: Option<Throwable>, ghost delivered: seq<Notification<PromiseEntry>>)
    requires amount > 0
    ensures source == Some(Error(Null, PromiseException(ThenFailure, ImplicitNullPointer)))
    ensures task == Some(Error(Null, ImplicitNullPointer))
    ensures |slots| == amount && forall i :: 0 <= i < amount ==> slots[i] == null
    ensures delivered == [Notify(0, Value(Null, v)), Notify(1, Value(Null, v)), Done,
                          Notify(0, Error(Null, PromiseException(ThenFailure, ImplicitNullPointer))), Done]
    ensures errorEscaped == None
  {
    var p, forked := ForkAsWrittenRunsValueClosure(amount, v);
    delivered := p.publisher.log;
    task, slots := forked.onValue.task.Get(), forked.slots[..];
    errorEscaped := forked.onError.Handle(Error(Null, PromiseException(ThenFailure, ImplicitNullPointer)));
    source := p.Get();
  }

  /** fork as the code stands, up to the value closure's run on `v`. */
  method ForkAsWrittenRunsValueClosure(amount: int, v: Val) returns (p: BasePromise, forked: Forked)
    requires amount > 0
    ensures fresh(p) && fresh(p.publisher) && forked.Forked? && fresh(forked.slots) && fresh(forked.onError)
    ensures forked.slots.Length == amount && forall i :: 0 <= i < amount ==> forked.slots[i] == null
    ensures forked.onError.Valid() && forked.onError.source == p && forked.onError.errorFn == ForkErrors(forked.slots)
    ensures p.Current() == State(true, Some(Error(Null, PromiseException(ThenFailure, ImplicitNullPointer))))
    ensures forked.onValue.task.Current() == State(true, Some(Error(Null, ImplicitNullPointer)))
    ensures p.publisher.log == [Notify(0, Value(Null, v)), Notify(1, Value(Null, v)), Done,
                                Notify(0, Error(Null, PromiseException(ThenFailure, ImplicitNullPointer))), Done]
  {
    p, forked := ForkAsWrittenSets(amount, v);
    assert FirstNull(forked.slots) == 0;
    assert RemoveFirst([0, 1], 1) == [0];
    ghost var e: PromiseEntry := Error(Null, PromiseException(ThenFailure, ImplicitNullPointer));
    assert Published<PromiseEntry>(true, Some([0]), e) == [Notify(0, e), Done];
    RunForkClosure(forked.onValue, v);
    assert p.publisher.observers == Some([0]) && p.publisher.publishing;
  }

  /** fork as the code stands on a fresh promise, then the source value `v`: both closures are told. */
  method ForkAsWrittenSets(amount: int, v: Val) returns (p: BasePromise, forked: Forked)
    requires amount > 0
    ensures fresh(p) && fresh(p.publisher) && forked.Forked? && fresh(forked.slots) && fresh(forked.onError)
    ensures fresh(forked.onValue) && fresh(forked.onValue.task) && fresh(forked.onValue.task.publisher)
    ensures forked.slots.Length == amount && forall i :: 0 <= i < amount ==> forked.slots[i] == null
    ensures forked.onError.Valid() && forked.onError.source == p && forked.onError.errorFn == ForkErrors(forked.slots)
    ensures forked.onValue.Valid() && forked.onValue.source == p && forked.onValue.valueFn == ForkValues(forked.slots)
    ensures forked.onValue.subscription == Subscription(1)
    ensures forked.onValue.task.Current() == Unfulfilled
    ensures p.Current() == State(true, Some(Value(Null, v)))
    ensures p.publisher.observers == Some([0, 1]) && p.publisher.publishing
    ensures p.publisher.log == [Notify(0, Value(Null, v)), Notify(1, Value(Null, v)), Done]
  {
    p := new BasePromise();
    forked := Fork(p, amount);
    assert p.publisher.log == [];
    assert Subscribed(Some(Subscribed(None, 0)), 1) == [0, 1];
    assert p.publisher.observers == Some([0, 1]);
    p.Set(v);
  }

  /**
   * fork as the code stands, given an error: the error closure throws a
   * NullPointerException on the first unfilled slot, and that exception is
   * swallowed, so nothing escapes and the source keeps only its own error.
   */
  method ForkAsWrittenLosesError(amount: int, t: Throwable)
    returns (thrown: Option<Throwable>, escaped: Option<Throwable>, source: Option<PromiseEntry>)
    requires amount > 0
    ensures thrown == Some(ImplicitNullPointer)
    ensures escaped == None
    ensures source == Some(Error(Null, t))
  {
    var p := new BasePromise();
    var forked := Fork(p, amount);
    p.SetError(t);
    thrown := forked.onError.Outcome(Null, t);
    escaped := forked.onError.Handle(Error(Null, t));
    source := p.Get();
  }

  /** fork with filled slots: a source value is set on every slot, in a fresh promise of its own. */
  method ForkFilledSetsEverySlot(amount: nat, v: Val) returns (entries: seq<Option<PromiseEntry>>, task: Option<PromiseEntry>)
    ensures |entries| == amount && forall i :: 0 <= i < amount ==> entries[i] == Some(Value(Null, v))
    ensures task == Some(Value(Null, Flag(true)))
  {
    var p := new BasePromise();
    var forked := ForkFilled(p, amount);
    p.Set(v);
    RunForkClosure(forked.onValue, v);
    entries := SlotEntries(forked.slots);
    task := forked.onValue.task.Get();
  }

  /**
   * The fork value closure handed `v`: it leaves the source's list, the
   * slots take `v` up to the first empty one, and then the task completes,
   * or, when a slot is empty, the source and the task are errored.
   */
  method RunForkClosure(observer: ThenObserver, v: Val)
    requires observer.Valid() && observer.valueFn.ForkValues?
    modifies observer`invocations, observer.source`fulfilled, observer.source`entry
    modifies observer.source.publisher`observers, observer.source.publisher`log
    modifies observer.task`fulfilled, observer.task`entry, observer.task.publisher`log
    modifies SlotFrame(observer.valueFn.slots)
    ensures SlotsApplied(observer.valueFn.slots, Value(Null, v))
    ensures FirstNull(observer.valueFn.slots) == observer.valueFn.slots.Length ==>
      observer.task.Current() == Accept(old(observer.task.Current()), Value(Null, Flag(true)))
    ensures FirstNull(observer.valueFn.slots) < observer.valueFn.slots.Length ==>
      observer.source.Applied(Error(Null, PromiseException(ThenFailure, ImplicitNullPointer)))
      && observer.task.Applied(Error(Null, ImplicitNullPointer))
    ensures observer.source.publisher.observers ==
      Some(RemoveFirst(old(observer.source.publisher.observers.value), observer.subscription.observer))
  {
    var _, _ := observer.Handle(Value(Null, v));
  }

  /** fork with filled slots: a source error is sent to every slot. */
  method ForkFilledErrorsEverySlot(amount: nat, t: Throwable) returns (entries: seq<Option<PromiseEntry>>)
    ensures |entries| == amount && forall i :: 0 <= i < amount ==> entries[i] == Some(Error(Null, t))
  {
    var p := new BasePromise();
    var forked := ForkFilled(p, amount);
    p.SetError(t);
    RunForkErrorClosure(forked.onError, t);
    entries := SlotEntries(forked.slots);
  }

  /** The fork error closure handed `t`: every slot up to the first empty one is errored with `t`. */
  method RunForkErrorClosure(observer: ErrorObserver, t: Throwable)
    requires observer.Valid() && observer.errorFn.ForkErrors?
    modifies observer`invocations, observer.source.publisher`observers
    modifies observer.Targets()`fulfilled, observer.Targets()`entry, observer.TargetPublishers()`log
    ensures SlotsApplied(observer.errorFn.slots, Error(Null, t))
  {
    var _ := observer.Handle(Error(Null, t));
  }

  /** What each slot holds (None for an empty slot or an unfulfilled promise). */
  method SlotEntries(slots: array<BasePromise?>) returns (entries: seq<Option<PromiseEntry>>)
    ensures |entries| == slots.Length
    ensures forall i :: 0 <= i < slots.Length ==> entries[i] == if slots[i] == null then None else slots[i].Get()
  {
    entries := [];
    for i := 0 to slots.Length
      invariant |entries| == i
      invariant forall j :: 0 <= j < i ==> entries[j] == if slots[j] == null then None else slots[j].Get()
    {
      entries := entries + [if slots[i] == null then None else slots[i].Get()];
    }
  }
}
