/**
 * The publisher: a one-to-many notifier with an ordered observer list and a
 * pause switch. Observers are callback identities; what a delivery makes an
 * observer do is modelled by whoever registered it, from the log of
 * notifications kept here.
 */
module Observe {
  import opened Messages

  /** One thing a publisher did: call an observer with a message, or signal `done`. */
  datatype Notification<T> = Notify(observer: ObserverId, message: T) | Done

  /** The unsubscribe action `onChange` hands back: it removes this observer again. */
  datatype Subscription = Subscription(observer: ObserverId)

  /** The observer list after subscribing `o`: a new one-element list, or `o` at the end. */
  function Subscribed(observers: Option<seq<ObserverId>>, o: ObserverId): (r: seq<ObserverId>)
    ensures observers.None? ==> r == [o]
    ensures observers.Some? ==> |r| == |observers.value| + 1 && r[..|r| - 1] == observers.value
    ensures r[|r| - 1] == o
  {
    match observers
    case None => [o]
    case Some(list) => list + [o]
  }

  /** The list a Java `List.remove(Object)` leaves: the first equal element is gone. */
  function RemoveFirst(list: seq<ObserverId>, o: ObserverId): (r: seq<ObserverId>)
    ensures |r| == if o in list then |list| - 1 else |list|
    ensures o !in list ==> r == list
  {
    if list == [] then []
    else if list[0] == o then list[1..]
    else [list[0]] + RemoveFirst(list[1..], o)
  }

  /** The position of the first occurrence of `o`. */
  function FirstIndex(list: seq<ObserverId>, o: ObserverId): (i: nat)
    requires o in list
    ensures i < |list| && list[i] == o && o !in list[..i]
  {
    if list[0] == o then 0
    else
      var i := 1 + FirstIndex(list[1..], o);
      assert list[..i] == [list[0]] + list[1..][..i - 1];
      i
  }

  /** The notifications one message makes: every observer once, in list order. */
  function Deliveries<T>(list: seq<ObserverId>, m: T): (r: seq<Notification<T>>)
    ensures |r| == |list|
    ensures forall i :: 0 <= i < |list| ==> r[i] == Notify(list[i], m)
  {
    if list == [] then [] else [Notify(list[0], m)] + Deliveries(list[1..], m)
  }

  /** The observers a delivery iterates over; no list yet means nobody to call. */
  function Listeners(observers: Option<seq<ObserverId>>): seq<ObserverId>
  {
    if observers.Some? then observers.value else []
  }

  /** Everything `act` does with one message: the deliveries when publishing, then `done`. */
  function Published<T>(publishing: bool, observers: Option<seq<ObserverId>>, m: T): seq<Notification<T>>
  {
    (if publishing then Deliveries(Listeners(observers), m) else []) + [Done]
  }

  /** The number of times `o` is notified of `m` is the number of times it is on the list. */
  lemma {:induction false} DeliveriesExactlyOnce<T>(list: seq<ObserverId>, m: T, o: ObserverId)
    ensures multiset(Deliveries(list, m))[Notify(o, m)] == multiset(list)[o]
  {
    if list != [] {
      DeliveriesExactlyOnce(list[1..], m, o);
      assert list == [list[0]] + list[1..];
      assert Deliveries(list, m) == [Notify(list[0], m)] + Deliveries(list[1..], m);
    }
  }

  /** Removing `o` cuts out exactly its first occurrence and keeps the rest in order. */
  lemma {:induction false} RemoveFirstCutsFirstOccurrence(list: seq<ObserverId>, o: ObserverId)
    ensures o in list ==> RemoveFirst(list, o) == list[..FirstIndex(list, o)] + list[FirstIndex(list, o) + 1..]
    ensures o !in list ==> RemoveFirst(list, o) == list
  {
    if list != [] && list[0] != o {
      RemoveFirstCutsFirstOccurrence(list[1..], o);
      if o in list {
        var i := FirstIndex(list, o);
        assert FirstIndex(list[1..], o) == i - 1;
        assert list[..i] == [list[0]] + list[1..][..i - 1];
        assert list[i + 1..] == list[1..][i..];
      } else {
        assert list == [list[0]] + list[1..];
      }
    }
  }

  /** Removing takes away one occurrence of `o` and nothing else. */
  lemma {:induction false} RemoveFirstMultiset(list: seq<ObserverId>, o: ObserverId)
    ensures multiset(RemoveFirst(list, o)) == multiset(list) - multiset{o}
  {
    if list != [] {
      RemoveFirstMultiset(list[1..], o);
      assert list == [list[0]] + list[1..];
      assert multiset(list) == multiset{list[0]} + multiset(list[1..]);
      if list[0] != o {
        assert multiset(RemoveFirst(list, o)) == multiset{list[0]} + multiset(RemoveFirst(list[1..], o));
      }
    }
  }

  /** Subscribing an observer that is not yet on the list, then unsubscribing it, restores the list. */
  lemma {:induction false} UnsubscribeUndoesSubscribe(observers: Option<seq<ObserverId>>, o: ObserverId)
    requires o !in Listeners(observers)
    ensures RemoveFirst(Subscribed(observers, o), o) == Listeners(observers)
  {
    var list := Listeners(observers);
    var r := Subscribed(observers, o);
    assert r == list + [o];
    RemoveFirstCutsFirstOccurrence(r, o);
    assert forall k :: 0 <= k < |list| ==> r[k] == list[k] && r[k] != o;
    assert FirstIndex(r, o) == |list|;
  }

  class Publisher<T> {
    /** The observer list; None while nobody has subscribed (the Java reference is still null). */
    var observers: Option<seq<ObserverId>>
    var publishing: bool
    /** The calls this publisher has made, in order. */
    ghost var log: seq<Notification<T>>

    constructor ()
      ensures observers == None && IsPublishing() && log == []
    {
      observers := None;
      publishing := true;
      log := [];
    }

    /** Whether messages are delivered (true) or discarded (false). */
    function IsPublishing(): bool
      reads this
    {
      publishing
    }

    method SetPublishing(value: bool)
      modifies this`publishing
      ensures IsPublishing() == value
    {
      publishing := value;
    }

    /** Subscribe `o`; the returned subscription is its unsubscribe action. */
    method OnChange(o: ObserverId) returns (unsubscribe: Subscription)
      modifies this`observers
      ensures observers == Some(Subscribed(old(observers), o))
      ensures unsubscribe == Subscription(o)
    {
      if observers.None? {
        observers := Some([o]);
      } else {
        observers := Some(observers.value + [o]);
      }
      unsubscribe := Subscription(o);
    }

    /** Run an unsubscribe action; it only exists once a list does. */
    method Unsubscribe(unsubscribe: Subscription)
      requires observers.Some?
      modifies this`observers
      ensures observers == Some(RemoveFirst(old(observers.value), unsubscribe.observer))
    {
      observers := Some(RemoveFirst(observers.value, unsubscribe.observer));
    }

    /**
     * Deliver `message` to every observer in list order while publishing,
     * then signal done. A list that does not exist yet is read as empty
     * (see ActAsWritten for the code as it stands). The observers
     * are not run here, so the list cannot change during the iteration; the
     * Java list's behaviour when an observer unsubscribes while being
     * iterated over is not modelled.
     */
    method Act(message: T)
      modifies this`log
      ensures log == old(log) + Published(publishing, observers, message)
    {
      if publishing {
        var list := Listeners(observers);
        var i := 0;
        while i < |list|
          invariant 0 <= i <= |list|
          invariant log == old(log) + Deliveries(list[..i], message)
        {
          log := log + [Notify(list[i], message)];
          i := i + 1;
          assert Deliveries(list[..i], message) == Deliveries(list[..i - 1], message) + [Notify(list[i - 1], message)];
        }
        assert list[..|list|] == list;
      }
      log := log + [Done];
    }

    /**
     * `act` as the code stands: with publishing on and no list yet, the
     * iteration dereferences null, so the JVM throws before any delivery
     * and `done` is never signalled.
     */
    method ActAsWritten(message: T) returns (thrown: Option<Throwable>)
      modifies this`log
      ensures thrown == (if publishing && observers.None? then Some(ImplicitNullPointer) else None)
      ensures thrown.None? ==> log == old(log) + Published(publishing, observers, message)
      ensures thrown.Some? ==> log == old(log)
    {
      if publishing && observers.None? {
        return Some(ImplicitNullPointer);
      }
      thrown := None;
      Act(message);
    }
  }

  /**
   * A message sent while paused reaches nobody and is not kept: after
   * publishing resumes, only the next message is delivered.
   */
  method PausedMessageIsDiscarded<T>(o: ObserverId, paused: T, next: T)
    returns (resumed: bool, ghost log: seq<Notification<T>>)
    ensures resumed
    ensures log == [Done, Notify(o, next), Done]
  {
    var p := new Publisher<T>();
    var _ := p.OnChange(o);
    p.SetPublishing(false);
    p.Act(paused);
    p.SetPublishing(true);
    resumed := p.IsPublishing();
    p.Act(next);
    log := p.log;
  }

  /** A publisher nobody has subscribed to throws on its first message and never signals done. */
  method FreshPublisherActThrows<T>(message: T) returns (thrown: Option<Throwable>, ghost signalled: bool)
    ensures thrown == Some(ImplicitNullPointer)
    ensures !signalled
  {
    var p := new Publisher<T>();
    thrown := p.ActAsWritten(message);
    signalled := Done in p.log;
  }
}
