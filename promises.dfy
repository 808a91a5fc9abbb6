/**
 * The promise: a holder of one entry that is fulfilled once and afterwards
 * only accepts errors, built on a publisher; and the closures that `then`
 * and `onError` register on that publisher.
 *
 * A delivery is recorded in the publisher's log (see Observe). What the
 * closure behind an observer does with that delivery is that closure's
 * `Handle` method, a step of its own: the nested synchronous calls of the
 * Java code are taken one closure at a time, in the order the logs give.
 */
module Promises {
  import opened Messages
  import opened Observe

  /** A Java value as the erased generic code handles it (a promise can hold a promise). */
  datatype Val = Null | Data(n: int) | Flag(b: bool) | PromiseRef(promise: BasePromise)

  type PromiseEntry = Entry<Val, Val>

  /** What a promise holds: whether it is fulfilled, and its entry (`None` for Java null). */
  datatype State = State(fulfilled: bool, entry: Option<PromiseEntry>)

  const Unfulfilled: State := State(false, None)

  /** The entry is there exactly when the promise is fulfilled. */
  predicate Consistent(s: State) { s.fulfilled <==> s.entry.Some? }

  /** The acceptance rule of `apply`: the first entry of any kind, afterwards only errors. */
  predicate Accepts(s: State, e: PromiseEntry) { !s.fulfilled || e.Error? }

  /** The state `apply(e)` leaves: an accepted entry is stored, a dropped one changes nothing. */
  function Accept(s: State, e: PromiseEntry): (r: State)
    ensures !s.fulfilled || e.Error? ==> r.fulfilled && r.entry == Some(e)
    ensures s.fulfilled && !e.Error? ==> r == s
  {
    if Accepts(s, e) then State(true, Some(e)) else s
  }

  /** The state after applying `es` in order. */
  function ApplyAll(s: State, es: seq<PromiseEntry>): State
    decreases |es|
  {
    if es == [] then s else ApplyAll(Accept(s, es[0]), es[1..])
  }

  /** The last Error entry of `es`, if any. */
  function LastError(es: seq<PromiseEntry>): (r: Option<PromiseEntry>)
    ensures r.Some? ==> r.value in es && r.value.Error?
    ensures r.None? ==> forall i :: 0 <= i < |es| ==> !es[i].Error?
    ensures r.Some? ==> exists i :: 0 <= i < |es| && es[i] == r.value && forall j :: i < j < |es| ==> !es[j].Error?
  {
    if es == [] then None
    else if LastError(es[1..]).Some? then LastError(es[1..])
    else if es[0].Error? then Some(es[0])
    else None
  }

  /**
   * What `get` returns after the entries `es` were applied to a new promise,
   * stated without the acceptance rule: the first entry, unless an error came
   * after it, in which case the last such error.
   */
  function Settled(es: seq<PromiseEntry>): Option<PromiseEntry>
  {
    if es == [] then None
    else if LastError(es[1..]).Some? then LastError(es[1..])
    else Some(es[0])
  }

  /** Accepting keeps a promise consistent and always leaves it fulfilled. */
  lemma AcceptFulfils(s: State, e: PromiseEntry)
    requires Consistent(s)
    ensures Consistent(Accept(s, e)) && Accept(s, e).fulfilled
    ensures Accept(s, e).entry.Some?
  {
  }

  /** On a fulfilled promise, later entries only change it through their last error. */
  lemma {:induction false} ApplyAllFulfilled(s: State, es: seq<PromiseEntry>)
    requires s.fulfilled && Consistent(s)
    ensures ApplyAll(s, es).fulfilled && Consistent(ApplyAll(s, es))
    ensures ApplyAll(s, es).entry == if LastError(es).Some? then LastError(es) else s.entry
    decreases |es|
  {
    if es != [] {
      ApplyAllFulfilled(Accept(s, es[0]), es[1..]);
    }
  }

  /** Single fulfilment: a new promise ends up holding exactly what Settled says. */
  lemma SettledIsApplied(es: seq<PromiseEntry>)
    ensures ApplyAll(Unfulfilled, es).entry == Settled(es)
    ensures ApplyAll(Unfulfilled, es).fulfilled <==> es != []
  {
    if es != [] {
      ApplyAllFulfilled(Accept(Unfulfilled, es[0]), es[1..]);
    }
  }

  /** A first value stays once and for all unless an error is applied later. */
  lemma FirstValueIsPermanent(v: PromiseEntry, later: seq<PromiseEntry>)
    requires v.Value?
    requires forall i :: 0 <= i < |later| ==> !later[i].Error?
    ensures ApplyAll(Unfulfilled, [v] + later).entry == Some(v)
  {
    SettledIsApplied([v] + later);
    assert ([v] + later)[1..] == later;
  }

  /** What a `then` closure's value function is (each closure the core passes to `then`). */
  datatype ValueFn =
      /** a caller's procedure, given (from, value); it returns or throws */
    | UserValueFn(behaviour: (Val, Val) -> Option<Throwable>)
      /** map: set `target` to the mapping function's result */
    | MapInto(target: BasePromise, mappingFn: Val -> Completion<Val>)
      /** flatten, on the outer promise: listen to the inner promise it holds */
    | FlattenInto(target: BasePromise)
      /** flatten, on the inner promise: set `target` to the value */
    | SetInto(target: BasePromise)
      /** fork: set every slot of the array to the value */
    | ForkValues(slots: array<BasePromise?>)
      /** forwardTo: the empty procedure */
    | Ignore

  /** What an `onError` closure's error function is. */
  datatype ErrorFn =
      /** a caller's procedure, given (from, error); it returns or throws */
    | UserErrorFn(behaviour: (Val, Throwable) -> Option<Throwable>)
      /** flatten, on the inner promise: error `target` */
    | ErrorInto(target: BasePromise)
      /** fork: error every slot of the array */
    | ForkErrors(slots: array<BasePromise?>)

  /** The index of the first empty (null) slot, or the length when there is none. */
  function FirstNull(slots: array<BasePromise?>): (k: nat)
    reads slots
    ensures k <= slots.Length
    ensures forall i :: 0 <= i < k ==> slots[i] != null
    ensures k < slots.Length ==> slots[k] == null
  {
    FirstNullFrom(slots, 0)
  }

  function FirstNullFrom(slots: array<BasePromise?>, from: nat): (k: nat)
    requires from <= slots.Length
    reads slots
    ensures from <= k <= slots.Length
    ensures forall i :: from <= i < k ==> slots[i] != null
    ensures k < slots.Length ==> slots[k] == null
    decreases slots.Length - from
  {
    if from == slots.Length || slots[from] == null then from else FirstNullFrom(slots, from + 1)
  }

  /** No promise, and no publisher, sits in two slots. */
  ghost predicate SlotsDistinct(slots: array<BasePromise?>)
    reads slots
  {
    forall i, j :: 0 <= i < j < slots.Length && slots[i] != null ==>
      slots[i] != slots[j] && (slots[j] != null ==> slots[i].publisher != slots[j].publisher)
  }

  /** The promises in the slots and their publishers. */
  function SlotFrame(slots: array<BasePromise?>): set<object>
    reads slots
  {
    SlotPromises(slots) + SlotPublishers(slots)
  }

  /** The promises in the slots. */
  function SlotPromises(slots: array<BasePromise?>): set<BasePromise>
    reads slots
  {
    set i | 0 <= i < slots.Length && slots[i] != null :: slots[i]
  }

  /** The publishers of the promises in the slots. */
  function SlotPublishers(slots: array<BasePromise?>): set<Publisher<PromiseEntry>>
    reads slots
  {
    set i | 0 <= i < slots.Length && slots[i] != null :: slots[i].publisher
  }

  /**
   * Between two states: the slots up to the first empty one were applied
   * `e`, the rest are as they were, and the array itself is unchanged.
   */
  twostate predicate SlotsApplied(slots: array<BasePromise?>, e: PromiseEntry)
    reads slots, SlotFrame(slots)
  {
    unchanged(slots)
    && (forall i :: 0 <= i < FirstNull(slots) ==> slots[i].Applied(e))
    && (forall i :: FirstNull(slots) <= i < slots.Length && slots[i] != null ==> slots[i].Untouched())
  }

  /** The message `then` wraps a value function's exception in. */
  const ThenFailure: string := "Promise.then gave error for"

  class BasePromise {
    const publisher: Publisher<PromiseEntry>
    var fulfilled: bool
    var entry: Option<PromiseEntry>
    var hasValueHandler: bool
    var hasErrorHandler: bool
    /** The identity the next closure registered on this promise gets. */
    var nextObserver: ObserverId

    function Current(): State
      reads this
    {
      State(fulfilled, entry)
    }

    ghost predicate Valid()
      reads this
    {
      Consistent(Current())
    }

    /** `get`: the entry, or `None` (Java null) while unfulfilled. */
    function Get(): (r: Option<PromiseEntry>)
      reads this
      ensures Valid() ==> (r.None? <==> !fulfilled)
    {
      entry
    }

    /** What publishing `e` from state `s` adds to the publisher's log. */
    ghost function Announced(s: State, e: PromiseEntry): seq<Notification<PromiseEntry>>
      reads publisher
    {
      if Accepts(s, e) then Published(publisher.publishing, publisher.observers, e) else []
    }

    /** What the replay at the end of a registration adds to the publisher's log. */
    ghost function Replayed(): seq<Notification<PromiseEntry>>
      reads this, publisher
    {
      if entry.Some? then Published(publisher.publishing, publisher.observers, entry.value) else []
    }

    /**
     * Between two states: this promise took `e` through `apply`. Its state
     * is `Accept` of the old one, and its log grew by what accepting `e`
     * announced to the observers it has now.
     */
    twostate predicate Applied(new e: PromiseEntry)
      reads this, publisher
    {
      Current() == Accept(old(Current()), e) && publisher.log == old(publisher.log) + Announced(old(Current()), e)
    }

    /** Between two states: neither the state nor the log of this promise changed. */
    twostate predicate Untouched()
      reads this, publisher
    {
      Current() == old(Current()) && publisher.log == old(publisher.log)
    }

    constructor ()
      ensures Valid() && Current() == Unfulfilled && Get() == None
      ensures !hasValueHandler && !hasErrorHandler && nextObserver == 0
      ensures fresh(publisher) && publisher.observers == None && publisher.publishing && publisher.log == []
    {
      fulfilled, entry := false, None;
      hasValueHandler, hasErrorHandler := false, false;
      nextObserver := 0;
      publisher := new Publisher();
    }

    /**
     * `apply`: a null entry fails and changes nothing; otherwise the
     * acceptance rule decides, and an accepted entry is stored and published.
     */
    method Apply(e: Option<PromiseEntry>) returns (failure: Option<Throwable>)
      modifies this`fulfilled, this`entry, publisher`log
      ensures old(Valid()) ==> Valid()
      ensures e.None? ==> failure == Some(NullPointerException(Some("cannot promise a null entry")))
      ensures e.None? ==> Current() == old(Current()) && publisher.log == old(publisher.log)
      ensures e.Some? ==> failure == None && Current() == Accept(old(Current()), e.value)
      ensures e.Some? ==> publisher.log == old(publisher.log) + Announced(old(Current()), e.value)
      ensures e.Some? ==> Applied(e.value)
    {
      if e.None? {
        return Some(NullPointerException(Some("cannot promise a null entry")));
      }
      var allowed := !fulfilled || e.value.Error?;
      if !allowed {
        return None;
      }
      fulfilled := true;
      entry := e;
      publisher.Act(e.value);
      failure := None;
    }

    /** `set(value)`: apply a Value entry (that method is not part of this model; its key is taken as null). */
    method Set(v: Val)
      modifies this`fulfilled, this`entry, publisher`log
      ensures old(Valid()) ==> Valid()
      ensures Current() == Accept(old(Current()), Value(Null, v))
      ensures publisher.log == old(publisher.log) + Announced(old(Current()), Value(Null, v))
      ensures Applied(Value(Null, v))
    {
      var _ := Apply(Some(Value(Null, v)));
    }

    /** `error(t)`: apply an Error entry (not part of this model either; key taken as null). */
    method SetError(t: Throwable)
      modifies this`fulfilled, this`entry, publisher`log
      ensures old(Valid()) ==> Valid()
      ensures Current() == Accept(old(Current()), Error(Null, t))
      ensures publisher.log == old(publisher.log) + Announced(old(Current()), Error(Null, t))
      ensures Applied(Error(Null, t))
    {
      var _ := Apply(Some(Error(Null, t)));
    }

    /** `complete()` of a Task: set it to true. */
    method Complete()
      modifies this`fulfilled, this`entry, publisher`log
      ensures old(Valid()) ==> Valid()
      ensures Current() == Accept(old(Current()), Value(Null, Flag(true)))
      ensures publisher.log == old(publisher.log) + Announced(old(Current()), Value(Null, Flag(true)))
      ensures Applied(Value(Null, Flag(true)))
    {
      Set(Flag(true));
    }

    /** Replay the stored entry, if any, to every observer (the end of `then` and `onError`). */
    method Replay()
      modifies publisher`log
      ensures publisher.log == old(publisher.log) + Replayed()
    {
      if entry.Some? {
        publisher.Act(entry.value);
      }
    }

    /**
     * `then(valueFn)`: register a closure that runs `valueFn` on a value and
     * reports to the returned task, mark a value handler, and replay.
     */
    method Then(valueFn: ValueFn) returns (task: BasePromise, observer: ThenObserver)
      requires ValueFnFits(valueFn, this)
      modifies this`nextObserver, this`hasValueHandler, publisher`observers, publisher`log
      ensures fresh(task) && fresh(task.publisher) && fresh(observer)
      ensures task.Valid() && task.Current() == Unfulfilled && task.publisher.observers == None
      ensures task.publisher.publishing && task.publisher.log == []
      ensures observer.source == this && observer.task == task && observer.valueFn == valueFn
      ensures observer.subscription == Subscription(old(nextObserver)) && observer.invocations == []
      ensures observer.Valid()
      ensures hasValueHandler && nextObserver == old(nextObserver) + 1
      ensures publisher.observers == Some(Subscribed(old(publisher.observers), old(nextObserver)))
      ensures publisher.log == old(publisher.log) + Replayed()
    {
      task := new BasePromise();
      var subscription := publisher.OnChange(nextObserver);
      nextObserver := nextObserver + 1;
      observer := new ThenObserver(this, task, valueFn, subscription);
      hasValueHandler := true;
      Replay();
    }

    /**
     * `onError(errorFn)`: register a closure that runs `errorFn` on the first
     * error, mark an error handler, replay, and return this same promise.
     */
    method OnError(errorFn: ErrorFn) returns (self: BasePromise, observer: ErrorObserver)
      requires ErrorFnFits(errorFn, this)
      modifies this`nextObserver, this`hasErrorHandler, publisher`observers, publisher`log
      ensures self == this
      ensures fresh(observer)
      ensures observer.source == this && observer.errorFn == errorFn
      ensures observer.subscription == Subscription(old(nextObserver)) && observer.invocations == []
      ensures observer.Valid()
      ensures hasErrorHandler && nextObserver == old(nextObserver) + 1
      ensures publisher.observers == Some(Subscribed(old(publisher.observers), old(nextObserver)))
      ensures publisher.log == old(publisher.log) + Replayed()
    {
      var subscription := publisher.OnChange(nextObserver);
      nextObserver := nextObserver + 1;
      observer := new ErrorObserver(this, errorFn, subscription);
      hasErrorHandler := true;
      Replay();
      self := this;
    }
  }

  /** The value function's targets are not the source, except where the code makes that possible. */
  ghost predicate ValueFnFits(valueFn: ValueFn, source: BasePromise)
    reads if valueFn.ForkValues? then {valueFn.slots} else {}
  {
    match valueFn
    case MapInto(target, _) => target != source && target.publisher != source.publisher
    case ForkValues(slots) =>
      SlotsDistinct(slots)
      && forall i :: 0 <= i < slots.Length && slots[i] != null ==> slots[i] != source && slots[i].publisher != source.publisher
    case _ => true
  }

  ghost predicate ErrorFnFits(errorFn: ErrorFn, source: BasePromise)
    reads if errorFn.ForkErrors? then {errorFn.slots} else {}
  {
    match errorFn
    case ForkErrors(slots) =>
      SlotsDistinct(slots) && forall i :: 0 <= i < slots.Length ==> slots[i] != source
    case _ => true
  }

  /** Set each slot to `v` in array order; an empty slot throws and ends the loop. */
  method SetEach(slots: array<BasePromise?>, v: Val) returns (thrown: Option<Throwable>)
    requires SlotsDistinct(slots)
    modifies SlotPromises(slots)`fulfilled, SlotPromises(slots)`entry, SlotPublishers(slots)`log
    ensures thrown == if FirstNull(slots) < slots.Length then Some(ImplicitNullPointer) else None
    ensures SlotsApplied(slots, Value(Null, v))
    ensures forall i :: 0 <= i < slots.Length && slots[i] != null && old(slots[i].Valid()) ==> slots[i].Valid()
    ensures forall i :: 0 <= i < slots.Length && slots[i] != null ==>
      slots[i].publisher.observers == old(slots[i].publisher.observers)
  {
    var i := 0;
    while i < slots.Length
      invariant 0 <= i <= FirstNull(slots)
      invariant forall j :: 0 <= j < i ==> slots[j].Applied(Value(Null, v))
      invariant forall j :: i <= j < slots.Length && slots[j] != null ==> unchanged(slots[j], slots[j].publisher)
      invariant forall j :: 0 <= j < slots.Length && slots[j] != null && old(slots[j].Valid()) ==> slots[j].Valid()
    {
      var p := slots[i];
      if p == null {
        return Some(ImplicitNullPointer);
      }
      label before:
      p.Set(v);
      assert forall j :: 0 <= j < slots.Length && slots[j] != null && j != i ==> unchanged@before(slots[j], slots[j].publisher);
      i := i + 1;
    }
    thrown := None;
  }

  /** Error each slot with `t` in array order; an empty slot throws and ends the loop. */
  method ErrorEach(slots: array<BasePromise?>, t: Throwable) returns (thrown: Option<Throwable>)
    requires SlotsDistinct(slots)
    modifies SlotPromises(slots)`fulfilled, SlotPromises(slots)`entry, SlotPublishers(slots)`log
    ensures thrown == if FirstNull(slots) < slots.Length then Some(ImplicitNullPointer) else None
    ensures SlotsApplied(slots, Error(Null, t))
    ensures forall i :: 0 <= i < slots.Length && slots[i] != null && old(slots[i].Valid()) ==> slots[i].Valid()
    ensures forall i :: 0 <= i < slots.Length && slots[i] != null ==>
      slots[i].publisher.observers == old(slots[i].publisher.observers)
  {
    var i := 0;
    while i < slots.Length
      invariant 0 <= i <= FirstNull(slots)
      invariant forall j :: 0 <= j < i ==> slots[j].Applied(Error(Null, t))
      invariant forall j :: i <= j < slots.Length && slots[j] != null ==> unchanged(slots[j], slots[j].publisher)
      invariant forall j :: 0 <= j < slots.Length && slots[j] != null && old(slots[j].Valid()) ==> slots[j].Valid()
    {
      var p := slots[i];
      if p == null {
        return Some(ImplicitNullPointer);
      }
      label before:
      p.SetError(t);
      assert forall j :: 0 <= j < slots.Length && slots[j] != null && j != i ==> unchanged@before(slots[j], slots[j].publisher);
      i := i + 1;
    }
    thrown := None;
  }

  /** The value a Value entry carries; Null for any other entry. */
  function DeliveredValue(e: PromiseEntry): Val
  {
    if e.Value? then e.value else Null
  }

  /** The closures flatten registers on the inner promise. */
  datatype Spawned = NoneSpawned | InnerListeners(onError: ErrorObserver, onValue: ThenObserver)

  /** The closure `then` registers, together with what it closes over. */
  class ThenObserver {
    const source: BasePromise
    const task: BasePromise
    const valueFn: ValueFn
    const subscription: Subscription
    /** The (from, value) pairs the value function was called with. */
    ghost var invocations: seq<(Val, Val)>

    ghost predicate Valid()
      reads this, source.publisher, if valueFn.ForkValues? then {valueFn.slots} else {}
    {
      source.publisher.observers.Some? && Fits()
    }

    /** The task and the value function's targets are apart from each other and from the source, publishers included. */
    ghost predicate Fits()
      reads if valueFn.ForkValues? then {valueFn.slots} else {}
    {
      source != task && source.publisher != task.publisher && ValueFnFits(valueFn, source)
      && (valueFn.MapInto? ==> valueFn.target != task && valueFn.target.publisher != task.publisher)
      && (valueFn.SetInto? ==> valueFn.target != task && valueFn.target.publisher != task.publisher)
      && (valueFn.ForkValues? ==> forall i :: 0 <= i < valueFn.slots.Length && valueFn.slots[i] != null ==>
            valueFn.slots[i] != task && valueFn.slots[i].publisher != task.publisher)
    }

    constructor (source: BasePromise, task: BasePromise, valueFn: ValueFn, subscription: Subscription)
      requires source != task && source.publisher != task.publisher
      requires source.publisher.observers.Some? && ValueFnFits(valueFn, source)
      requires valueFn.MapInto? ==> valueFn.target != task && valueFn.target.publisher != task.publisher
      requires valueFn.SetInto? ==> valueFn.target != task && valueFn.target.publisher != task.publisher
      requires valueFn.ForkValues? ==> forall i :: 0 <= i < valueFn.slots.Length && valueFn.slots[i] != null ==>
        valueFn.slots[i] != task && valueFn.slots[i].publisher != task.publisher
      ensures this.source == source && this.task == task && this.valueFn == valueFn
      ensures this.subscription == subscription && invocations == []
      ensures Valid()
    {
      this.source := source;
      this.task := task;
      this.valueFn := valueFn;
      this.subscription := subscription;
      invocations := [];
    }

    /**
     * Whether running the value function on `v` registers closures with
     * `p`'s publisher: flatten of a value that is `p` (or shares its publisher).
     */
    predicate FlattensInto(v: Val, p: BasePromise)
    {
      valueFn.FlattenInto? && v.PromiseRef? && v.promise.publisher == p.publisher
    }

    /** The objects running the value function on `v` may change; only flatten can reach the task. */
    function Frame(v: Val): (f: set<object>)
      requires Fits()
      reads if valueFn.ForkValues? then {valueFn.slots} else {}
      ensures this !in f
      ensures !valueFn.FlattenInto? ==> task !in f && task.publisher !in f
      ensures valueFn.MapInto? || valueFn.ForkValues? ==> source !in f && source.publisher !in f
    {
      match valueFn
      case MapInto(target, _) => {target, target.publisher}
      case SetInto(target) => {target, target.publisher}
      case FlattenInto(_) => if v.PromiseRef? then {v.promise, v.promise.publisher} else {}
      case ForkValues(slots) => SlotFrame(slots)
      case _ => {}
    }

    /** Whether the value function throws on (from, v), and what. */
    function Outcome(from: Val, v: Val): Option<Throwable>
      reads if valueFn.ForkValues? then {valueFn.slots} else {}
    {
      match valueFn
      case UserValueFn(behaviour) => behaviour(from, v)
      case MapInto(_, mappingFn) => if mappingFn(v).Abrupt? then Some(mappingFn(v).thrown) else None
      case FlattenInto(_) =>
        if v.PromiseRef? then None else if v.Null? then Some(ImplicitNullPointer) else Some(ClassCastException)
      case ForkValues(slots) => if FirstNull(slots) < slots.Length then Some(ImplicitNullPointer) else None
      case _ => None
    }

    /** What running the value function on `v` does to the promises it targets. */
    twostate predicate Effect(v: Val)
      reads if valueFn.MapInto? || valueFn.SetInto? then {valueFn.target, valueFn.target.publisher} else {},
            if valueFn.FlattenInto? && v.PromiseRef? then {v.promise} else {}
    {
      match valueFn
      case MapInto(target, mappingFn) =>
        if mappingFn(v).Normal? then target.Applied(Value(Null, mappingFn(v).result)) else target.Untouched()
      case SetInto(target) => target.Applied(Value(Null, v))
      case FlattenInto(_) =>
        v.PromiseRef? ==> v.promise.hasErrorHandler && v.promise.hasValueHandler
      case _ => true
    }

    /** Whether the value function sets the source itself (flatten of a promise holding itself). */
    predicate SetsSource()
    {
      valueFn.SetInto? && valueFn.target == source
    }

    /** The closures running the value function on `v` registers: flatten's two, on the inner promise. */
    predicate Spawns(v: Val, spawned: Spawned)
    {
      if valueFn.FlattenInto? && v.PromiseRef? then
        spawned.InnerListeners?
        && spawned.onError.source == v.promise && spawned.onError.errorFn == ErrorInto(valueFn.target)
        && spawned.onValue.source == v.promise && spawned.onValue.valueFn == SetInto(valueFn.target)
      else
        spawned == NoneSpawned
    }

    twostate predicate FreshSpawn(new spawned: Spawned)
    {
      spawned.InnerListeners? ==>
        fresh(spawned.onError) && fresh(spawned.onValue) && fresh(spawned.onValue.task) && fresh(spawned.onValue.task.publisher)
    }

    ghost predicate SpawnedValid(spawned: Spawned)
      reads if spawned.InnerListeners? then {spawned.onError, spawned.onValue, spawned.onError.source.publisher, spawned.onValue.source.publisher} else {}
    {
      spawned.InnerListeners? ==>
        spawned.onError.errorFn.ErrorInto? && spawned.onValue.valueFn.SetInto?
        && spawned.onError.Valid() && spawned.onValue.Valid()
    }

    /** Run the value function on (from, v). */
    method RunValueFn(from: Val, v: Val) returns (thrown: Option<Throwable>, spawned: Spawned)
      requires Valid()
      modifies Frame(v)
      ensures Valid()
      ensures thrown == Outcome(from, v)
      ensures !FlattensInto(v, source) ==> source.publisher.observers == old(source.publisher.observers)
      ensures Effect(v)
      ensures task.Current() == old(task.Current())
      ensures !FlattensInto(v, task) ==> unchanged(task, task.publisher)
      ensures thrown.Some? ==> source.Current() == old(source.Current())
      ensures thrown.Some? ==> unchanged(source, source.publisher, task, task.publisher)
      ensures valueFn.ForkValues? ==> SlotsApplied(valueFn.slots, Value(Null, v))
      ensures (valueFn.MapInto? || valueFn.SetInto?) && old(valueFn.target.Valid()) ==> valueFn.target.Valid()
      ensures (valueFn.MapInto? || valueFn.SetInto?) ==>
        valueFn.target.publisher.observers == old(valueFn.target.publisher.observers)
      ensures valueFn.ForkValues? ==> forall i :: 0 <= i < valueFn.slots.Length && valueFn.slots[i] != null ==>
        (old(valueFn.slots[i].Valid()) ==> valueFn.slots[i].Valid())
        && valueFn.slots[i].publisher.observers == old(valueFn.slots[i].publisher.observers)
      ensures valueFn.FlattenInto? && v.PromiseRef? ==>
        v.promise.Current() == old(v.promise.Current())
        && v.promise.nextObserver == old(v.promise.nextObserver) + 2
        && v.promise.publisher.observers ==
           Some(Subscribed(Some(Subscribed(old(v.promise.publisher.observers), old(v.promise.nextObserver))),
                           old(v.promise.nextObserver) + 1))
      ensures valueFn.FlattenInto? && v.PromiseRef? ==>
        v.promise.publisher.log == old(v.promise.publisher.log)
          + (if v.promise.entry.Some? then
               Published(v.promise.publisher.publishing,
                         Some(Subscribed(old(v.promise.publisher.observers), old(v.promise.nextObserver))),
                         v.promise.entry.value)
             else [])
          + v.promise.Replayed()
      ensures !SetsSource() ==> source.Current() == old(source.Current())
      ensures Spawns(v, spawned) && FreshSpawn(spawned) && SpawnedValid(spawned)
      ensures valueFn.MapInto? && valueFn.target.publisher != source.publisher ==>
        valueFn.target.publisher.observers == old(valueFn.target.publisher.observers)
    {
      spawned := NoneSpawned;
      match valueFn
      case UserValueFn(behaviour) =>
        thrown := behaviour(from, v);
      case MapInto(target, mappingFn) =>
        var r := mappingFn(v);
        if r.Abrupt? {
          thrown := Some(r.thrown);
        } else {
          target.Set(r.result);
          thrown := None;
        }
      case FlattenInto(target) =>
        if v.PromiseRef? {
          var inner, onError := v.promise.OnError(ErrorInto(target));
          ghost var logged := inner.publisher.log;
          var _, onValue := inner.Then(SetInto(target));
          assert inner.publisher.log == logged + inner.Replayed();
          spawned := InnerListeners(onError, onValue);
          thrown := None;
        } else if v.Null? {
          thrown := Some(ImplicitNullPointer);
        } else {
          thrown := Some(ClassCastException);
        }
      case SetInto(target) =>
        target.Set(v);
        thrown := None;
      case ForkValues(slots) =>
        thrown := SetEach(slots, v);
      case Ignore =>
        thrown := None;
    }

    /**
     * The closure's reaction to one delivered entry. On a Value it
     * unregisters itself, runs the value function and completes the task;
     * an exception from the value function errors the source with a
     * PromiseException and the task with the exception itself, and a
     * Throwable that is not an Exception escapes. On an Error it errors the
     * task and stays registered. Other entries are ignored.
     */
    method Handle(e: PromiseEntry) returns (escaped: Option<Throwable>, spawned: Spawned)
      requires Valid()
      modifies this`invocations, source`fulfilled, source`entry, source.publisher`observers, source.publisher`log
      modifies task`fulfilled, task`entry, task.publisher`log, Frame(DeliveredValue(e))
      ensures Valid()
      ensures e.Value? ==> invocations == old(invocations) + [(e.from, e.value)]
      ensures e.Value? && !FlattensInto(e.value, source) ==>
        source.publisher.observers == Some(RemoveFirst(old(source.publisher.observers.value), subscription.observer))
      ensures e.Value? && Outcome(e.from, e.value).None? ==>
        task.Current() == Accept(old(task.Current()), Value(Null, Flag(true))) && escaped == None
      ensures e.Value? && Outcome(e.from, e.value).None? && !FlattensInto(e.value, task) ==> task.Applied(Value(Null, Flag(true)))
      ensures e.Value? && Outcome(e.from, e.value).Some? && Outcome(e.from, e.value).value.IsException() ==>
        escaped == None
        && source.Applied(Error(Null, PromiseException(ThenFailure, Outcome(e.from, e.value).value)))
        && task.Applied(Error(Null, Outcome(e.from, e.value).value))
      ensures e.Value? && Outcome(e.from, e.value).Some? && !Outcome(e.from, e.value).value.IsException() ==>
        escaped == Outcome(e.from, e.value) && task.Untouched() && source.Untouched()
      ensures e.Value? && Outcome(e.from, e.value).None? && source.publisher !in Frame(e.value) ==>
        source.publisher.log == old(source.publisher.log)
      ensures e.Value? && Outcome(e.from, e.value).None? && !SetsSource() ==> source.Current() == old(source.Current())
      ensures e.Value? ==> Effect(e.value)
      ensures Spawns(DeliveredValue(e), spawned) && FreshSpawn(spawned) && SpawnedValid(spawned)
      ensures valueFn.MapInto? && valueFn.target.publisher != source.publisher ==>
        valueFn.target.publisher.observers == old(valueFn.target.publisher.observers)
      ensures e.Value? && valueFn.FlattenInto? && e.value.PromiseRef? && e.value.promise != task ==>
        e.value.promise.Current() == old(e.value.promise.Current())
      ensures !e.Value? && (valueFn.MapInto? || valueFn.SetInto?) ==> valueFn.target.Untouched()
      ensures e.Value? && valueFn.ForkValues? ==> SlotsApplied(valueFn.slots, Value(Null, e.value))
      ensures e.Error? ==>
        escaped == None && task.Applied(Error(Null, e.error))
        && source.publisher.observers == old(source.publisher.observers)
        && invocations == old(invocations) && source.Untouched()
      ensures !e.Value? && !e.Error? ==>
        escaped == None && task.Untouched() && source.Untouched()
        && source.publisher.observers == old(source.publisher.observers) && invocations == old(invocations)
      ensures old(source.Valid()) ==> source.Valid()
      ensures old(task.Valid()) ==> task.Valid()
    {
      escaped, spawned := None, NoneSpawned;
      match e
      case Value(from, v) =>
        escaped, spawned := HandleValue(from, v);
      case Error(_, t) =>
        task.SetError(t);
      case _ =>
    }

    /** A delivered value: unregister, run the value function, report to the task. */
    method HandleValue(from: Val, v: Val) returns (escaped: Option<Throwable>, spawned: Spawned)
      requires Valid()
      modifies this`invocations, source`fulfilled, source`entry, source.publisher`observers, source.publisher`log
      modifies task`fulfilled, task`entry, task.publisher`log, Frame(v)
      ensures Valid()
      ensures invocations == old(invocations) + [(from, v)]
      ensures !FlattensInto(v, source) ==>
        source.publisher.observers == Some(RemoveFirst(old(source.publisher.observers.value), subscription.observer))
      ensures Outcome(from, v).None? ==>
        task.Current() == Accept(old(task.Current()), Value(Null, Flag(true))) && escaped == None
      ensures Outcome(from, v).None? && !FlattensInto(v, task) ==> task.Applied(Value(Null, Flag(true)))
      ensures Outcome(from, v).Some? && Outcome(from, v).value.IsException() ==>
        escaped == None
        && source.Applied(Error(Null, PromiseException(ThenFailure, Outcome(from, v).value)))
        && task.Applied(Error(Null, Outcome(from, v).value))
      ensures Outcome(from, v).Some? && !Outcome(from, v).value.IsException() ==>
        escaped == Outcome(from, v) && task.Untouched() && source.Untouched()
      ensures Outcome(from, v).None? && source.publisher !in Frame(v) ==> source.publisher.log == old(source.publisher.log)
      ensures Outcome(from, v).None? && !SetsSource() ==> source.Current() == old(source.Current())
      ensures Effect(v)
      ensures valueFn.ForkValues? ==> SlotsApplied(valueFn.slots, Value(Null, v))
      ensures old(source.Valid()) ==> source.Valid()
      ensures old(task.Valid()) ==> task.Valid()
      ensures Spawns(v, spawned) && FreshSpawn(spawned) && SpawnedValid(spawned)
      ensures valueFn.MapInto? && valueFn.target.publisher != source.publisher ==>
        valueFn.target.publisher.observers == old(valueFn.target.publisher.observers)
      ensures valueFn.FlattenInto? && v.PromiseRef? && v.promise != task ==> v.promise.Current() == old(v.promise.Current())
    {
      Unregister(from, v);
      escaped, spawned := RunAndReport(from, v);
    }

    /** Take this closure off the source's list and record the call of the value function. */
    method Unregister(from: Val, v: Val)
      requires Valid()
      modifies this`invocations, source.publisher`observers
      ensures invocations == old(invocations) + [(from, v)]
      ensures source.publisher.observers == Some(RemoveFirst(old(source.publisher.observers.value), subscription.observer))
      ensures Valid() && unchanged(source, task, task.publisher)
      ensures valueFn.MapInto? ==> unchanged(valueFn.target, valueFn.target.publisher)
      ensures valueFn.ForkValues? ==> forall i :: 0 <= i < valueFn.slots.Length && valueFn.slots[i] != null ==>
        unchanged(valueFn.slots[i], valueFn.slots[i].publisher)
    {
      source.publisher.Unsubscribe(subscription);
      invocations := invocations + [(from, v)];
    }

    /** Run the value function and report its outcome. */
    method RunAndReport(from: Val, v: Val) returns (escaped: Option<Throwable>, spawned: Spawned)
      requires Valid()
      modifies source`fulfilled, source`entry, source.publisher`log, task`fulfilled, task`entry, task.publisher`log, Frame(v)
      ensures Valid() && invocations == old(invocations)
      ensures !FlattensInto(v, source) ==> source.publisher.observers == old(source.publisher.observers)
      ensures Outcome(from, v).None? ==>
        task.Current() == Accept(old(task.Current()), Value(Null, Flag(true))) && escaped == None
      ensures Outcome(from, v).None? && !FlattensInto(v, task) ==> task.Applied(Value(Null, Flag(true)))
      ensures Outcome(from, v).Some? && Outcome(from, v).value.IsException() ==>
        escaped == None
        && source.Applied(Error(Null, PromiseException(ThenFailure, Outcome(from, v).value)))
        && task.Applied(Error(Null, Outcome(from, v).value))
      ensures Outcome(from, v).Some? && !Outcome(from, v).value.IsException() ==>
        escaped == Outcome(from, v) && task.Untouched() && source.Untouched()
      ensures Outcome(from, v).None? && source.publisher !in Frame(v) ==> source.publisher.log == old(source.publisher.log)
      ensures Outcome(from, v).None? && !SetsSource() ==> source.Current() == old(source.Current())
      ensures Effect(v)
      ensures valueFn.ForkValues? ==> SlotsApplied(valueFn.slots, Value(Null, v))
      ensures old(source.Valid()) ==> source.Valid()
      ensures old(task.Valid()) ==> task.Valid()
      ensures Spawns(v, spawned) && FreshSpawn(spawned) && SpawnedValid(spawned)
      ensures valueFn.MapInto? && valueFn.target.publisher != source.publisher ==>
        valueFn.target.publisher.observers == old(valueFn.target.publisher.observers)
      ensures valueFn.FlattenInto? && v.PromiseRef? && v.promise != task ==> v.promise.Current() == old(v.promise.Current())
    {
      ghost var outcome := Outcome(from, v);
      var thrown;
      thrown, spawned := RunValueFn(from, v);
      label ran:
      escaped := Report(thrown);
      assert Outcome(from, v) == outcome;

      assert valueFn.FlattenInto? && v.PromiseRef? ==>
        v.promise.hasErrorHandler == old@ran(v.promise.hasErrorHandler)
        && v.promise.hasValueHandler == old@ran(v.promise.hasValueHandler);
    }

    /** Report the value function's outcome: complete the task, or error source and task, or let it escape. */
    method Report(thrown: Option<Throwable>) returns (escaped: Option<Throwable>)
      modifies source`fulfilled, source`entry, source.publisher`log, task`fulfilled, task`entry, task.publisher`log
      requires Valid()
      ensures Valid()
      ensures thrown.None? ==>
        escaped == None && unchanged(source, source.publisher) && task.Applied(Value(Null, Flag(true)))
      ensures thrown.Some? && thrown.value.IsException() ==>
        escaped == None
        && source.Applied(Error(Null, PromiseException(ThenFailure, thrown.value)))
        && task.Applied(Error(Null, thrown.value))
      ensures thrown.Some? && !thrown.value.IsException() ==>
        escaped == thrown && unchanged(source, source.publisher, task, task.publisher)
      ensures valueFn.ForkValues? ==> forall i :: 0 <= i < valueFn.slots.Length && valueFn.slots[i] != null ==>
        unchanged(valueFn.slots[i], valueFn.slots[i].publisher)
      ensures valueFn.MapInto? || (valueFn.SetInto? && thrown.None?) ==>
        unchanged(valueFn.target, valueFn.target.publisher)
      ensures old(source.Valid()) ==> source.Valid()
      ensures old(task.Valid()) ==> task.Valid()
    {
      escaped := None;
      if thrown.None? {
        task.Complete();
      } else if thrown.value.IsException() {
        source.SetError(PromiseException(ThenFailure, thrown.value));
        task.SetError(thrown.value);
      } else {
        escaped := thrown;
      }
    }
  }

  /** The closure `onError` registers, together with what it closes over. */
  class ErrorObserver {
    const source: BasePromise
    const errorFn: ErrorFn
    const subscription: Subscription
    /** The (from, error) pairs the error function was called with. */
    ghost var invocations: seq<(Val, Throwable)>

    ghost predicate Valid()
      reads this, source.publisher, if errorFn.ForkErrors? then {errorFn.slots} else {}
    {
      source.publisher.observers.Some? && ErrorFnFits(errorFn, source)
    }

    constructor (source: BasePromise, errorFn: ErrorFn, subscription: Subscription)
      requires source.publisher.observers.Some? && ErrorFnFits(errorFn, source)
      ensures this.source == source && this.errorFn == errorFn
      ensures this.subscription == subscription && invocations == []
      ensures Valid()
    {
      this.source := source;
      this.errorFn := errorFn;
      this.subscription := subscription;
      invocations := [];
    }

    /** The objects running the error function may change. */
    function Frame(): (f: set<object>)
      requires ErrorFnFits(errorFn, source)
      reads if errorFn.ForkErrors? then {errorFn.slots} else {}
      ensures this !in f
      ensures errorFn.ForkErrors? ==> source !in f
    {
      Targets() + TargetPublishers()
    }

    /** The promises the error function errors. */
    function Targets(): set<BasePromise>
      reads if errorFn.ForkErrors? then {errorFn.slots} else {}
    {
      match errorFn
      case ErrorInto(target) => {target}
      case ForkErrors(slots) => SlotPromises(slots)
      case _ => {}
    }

    /** Their publishers. */
    function TargetPublishers(): set<Publisher<PromiseEntry>>
      reads if errorFn.ForkErrors? then {errorFn.slots} else {}
    {
      match errorFn
      case ErrorInto(target) => {target.publisher}
      case ForkErrors(slots) => SlotPublishers(slots)
      case _ => {}
    }

    /** Whether the error function throws on (from, t), and what. */
    function Outcome(from: Val, t: Throwable): Option<Throwable>
      reads if errorFn.ForkErrors? then {errorFn.slots} else {}
    {
      match errorFn
      case UserErrorFn(behaviour) => behaviour(from, t)
      case ForkErrors(slots) => if FirstNull(slots) < slots.Length then Some(ImplicitNullPointer) else None
      case _ => None
    }

    /** What running the error function on `t` does to the promises it targets. */
    twostate predicate Effect(t: Throwable)
      reads if errorFn.ErrorInto? then {errorFn.target, errorFn.target.publisher} else {}
    {
      match errorFn
      case ErrorInto(target) => target.Applied(Error(Null, t))
      case _ => true
    }

    /**
     * The closure's reaction to one delivered entry: on an Error it
     * unregisters itself and runs the error function; an Exception from it
     * is only reported (printing is not modelled), any other Throwable
     * escapes. Other entries are ignored.
     */
    method Handle(e: PromiseEntry) returns (escaped: Option<Throwable>)
      requires Valid()
      modifies this`invocations, source.publisher`observers
      modifies Targets()`fulfilled, Targets()`entry, TargetPublishers()`log
      ensures Valid()
      ensures e.Error? ==>
        source.publisher.observers == Some(RemoveFirst(old(source.publisher.observers.value), subscription.observer))
        && invocations == old(invocations) + [(e.from, e.error)]
        && Effect(e.error)
        && escaped == (if Outcome(e.from, e.error).Some? && !Outcome(e.from, e.error).value.IsException()
                       then Outcome(e.from, e.error) else None)
      ensures e.Error? && errorFn.ForkErrors? ==> SlotsApplied(errorFn.slots, Error(Null, e.error))
      ensures !e.Error? ==>
        escaped == None && source.publisher.observers == old(source.publisher.observers)
        && invocations == old(invocations) && unchanged(Frame())
    {
      escaped := None;
      if e.Error? {
        Unregister(e.from, e.error);
        escaped := RunErrorFn(e.from, e.error);
      }
    }

    /** Take this closure off the source's list and record the call of the error function. */
    method Unregister(from: Val, t: Throwable)
      requires Valid()
      modifies this`invocations, source.publisher`observers
      ensures Valid()
      ensures invocations == old(invocations) + [(from, t)]
      ensures source.publisher.observers == Some(RemoveFirst(old(source.publisher.observers.value), subscription.observer))
      ensures errorFn.ErrorInto? ==> unchanged(errorFn.target)
      ensures errorFn.ForkErrors? ==> forall i :: 0 <= i < errorFn.slots.Length && errorFn.slots[i] != null ==>
        unchanged(errorFn.slots[i])
    {
      source.publisher.Unsubscribe(subscription);
      invocations := invocations + [(from, t)];
    }

    /** Run the error function on (from, t); an Exception from it is only reported, other Throwables escape. */
    method RunErrorFn(from: Val, t: Throwable) returns (escaped: Option<Throwable>)
      requires Valid()
      modifies Targets()`fulfilled, Targets()`entry, TargetPublishers()`log
      ensures Valid()
      ensures Effect(t)
      ensures escaped == (if Outcome(from, t).Some? && !Outcome(from, t).value.IsException() then Outcome(from, t) else None)
      ensures errorFn.ForkErrors? ==> SlotsApplied(errorFn.slots, Error(Null, t))
    {
      escaped := None;
      var thrown: Option<Throwable>;
      match errorFn {
        case UserErrorFn(behaviour) =>
          thrown := behaviour(from, t);
        case ErrorInto(target) =>
          target.SetError(t);
          thrown := None;
        case ForkErrors(slots) =>
          thrown := ErrorEach(slots, t);
      }
      if thrown.Some? && !thrown.value.IsException() {
        escaped := thrown;
      }
    }
  }
}
