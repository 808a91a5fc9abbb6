/**
 * The load balancer: a splitter that passes each value from its source to
 * the first child stream that is ready, broadcasts errors and finishes to
 * every child, and passes a child's command on to the source only when
 * its rule for that command allows it.
 *
 * A child stream is an object whose readiness, skipping and open flags
 * the balancer reads; what a child or the source does when called is not
 * part of this model, so the balancer keeps the calls it makes, in order.
 */
module LoadBalancing {
  import opened Messages

  /** A child stream, as far as the balancer looks at it. */
  class Child {
    var ready: bool
    var skipping: bool
    var open: bool

    constructor (ready: bool, skipping: bool, open: bool)
      ensures this.ready == ready && this.skipping == skipping && this.open == open
    {
      this.ready, this.skipping, this.open := ready, skipping, open;
    }
  }

  /** A call the balancer makes: on the child at an index of its list, or on its source. */
  datatype Call<I, O> =
    | ApplyTo(child: nat, entry: Entry<I, O>)
      /** `finish()` without a level, so the child's default level */
    | FinishTo(child: nat)
    | ErrorTo(child: nat, error: Throwable)
    | ToSource(command: Command)

  /** The children's flags, in list order. */
  function ReadyFlags(children: seq<Child>): (r: seq<bool>)
    reads children
    ensures |r| == |children| && forall i :: 0 <= i < |children| ==> r[i] == children[i].ready
  {
    if children == [] then [] else [children[0].ready] + ReadyFlags(children[1..])
  }

  function SkippingFlags(children: seq<Child>): (r: seq<bool>)
    reads children
    ensures |r| == |children| && forall i :: 0 <= i < |children| ==> r[i] == children[i].skipping
  {
    if children == [] then [] else [children[0].skipping] + SkippingFlags(children[1..])
  }

  function OpenFlags(children: seq<Child>): (r: seq<bool>)
    reads children
    ensures |r| == |children| && forall i :: 0 <= i < |children| ==> r[i] == children[i].open
  {
    if children == [] then [] else [children[0].open] + OpenFlags(children[1..])
  }

  /** The first ready child, if any. */
  function FirstReady(ready: seq<bool>): (r: Option<nat>)
    ensures r.Some? ==> r.value < |ready| && ready[r.value] && forall j :: 0 <= j < r.value ==> !ready[j]
    ensures r.None? ==> forall j :: 0 <= j < |ready| ==> !ready[j]
  {
    if ready == [] then None
    else if ready[0] then Some(0)
    else match FirstReady(ready[1..]) {
      case None => None
      case Some(i) => Some(i + 1)
    }
  }

  /** A finish for each of the first `n` children, in list order. */
  function FinishAll<I, O>(n: nat): (r: seq<Call<I, O>>)
    ensures |r| == n && forall i :: 0 <= i < n ==> r[i] == FinishTo(i)
  {
    if n == 0 then [] else FinishAll(n - 1) + [FinishTo(n - 1)]
  }

  /** The error `t` for each of the first `n` children, in list order. */
  function ErrorAll<I, O>(n: nat, t: Throwable): (r: seq<Call<I, O>>)
    ensures |r| == n && forall i :: 0 <= i < n ==> r[i] == ErrorTo(i, t)
  {
    if n == 0 then [] else ErrorAll(n - 1, t) + [ErrorTo(n - 1, t)]
  }

  /** The calls `onEntry` makes for one entry, given the children's readiness. */
  function Routed<I, O>(ready: seq<bool>, entry: Entry<I, O>): seq<Call<I, O>>
  {
    match entry
    case Value(_, _) => if FirstReady(ready).Some? then [ApplyTo(FirstReady(ready).value, entry)] else []
    case Finish(_, _) => FinishAll(|ready|)
    case Error(_, t) => ErrorAll(|ready|, t)
    case Close(_) => []
  }

  /** Whether every flag is set (StreamSplitter's `all`, true of no children). */
  function All(flags: seq<bool>): (r: bool)
  {
    if flags == [] then true else flags[0] && All(flags[1..])
  }

  /** Whether no flag is set. */
  function NoneSet(flags: seq<bool>): bool
  {
    if flags == [] then true else !flags[0] && NoneSet(flags[1..])
  }

  /** The calls `onCommand` makes for one command, given the children's flags. */
  function Commanded<I, O>(skipping: seq<bool>, open: seq<bool>, command: Command): seq<Call<I, O>>
  {
    match command
    case Next => [ToSource(Next)]
    case Skip => if All(skipping) then [ToSource(Skip)] else []
    case Close => if NoneSet(open) then [ToSource(Command.Close)] else []
  }

  lemma {:induction false} AllMeansEvery(flags: seq<bool>)
    ensures All(flags) <==> forall i :: 0 <= i < |flags| ==> flags[i]
  {
    if flags != [] {
      AllMeansEvery(flags[1..]);
      assert forall i :: 1 <= i < |flags| ==> flags[i] == flags[1..][i - 1];
    }
  }

  lemma {:induction false} NoneSetMeansNoOne(flags: seq<bool>)
    ensures NoneSet(flags) <==> forall i :: 0 <= i < |flags| ==> !flags[i]
  {
    if flags != [] {
      NoneSetMeansNoOne(flags[1..]);
      assert forall i :: 1 <= i < |flags| ==> flags[i] == flags[1..][i - 1];
    }
  }

  /** A value goes to child `i` exactly when `i` is the first ready child, and never to two children. */
  lemma ValueGoesToFirstReadyOnly<I, O>(ready: seq<bool>, from: I, v: O, i: nat)
    ensures ApplyTo(i, Value(from, v)) in Routed(ready, Value(from, v)) <==>
      i < |ready| && ready[i] && forall j :: 0 <= j < i ==> !ready[j]
    ensures |Routed(ready, Value(from, v))| <= 1
    ensures forall c :: c in Routed(ready, Value(from, v)) ==> c.ApplyTo? && c.entry == Value(from, v)
  {
    if i < |ready| && ready[i] && forall j :: 0 <= j < i ==> !ready[j] {
      FirstReadyIsUnique(ready, i);
    }
  }

  /** With no child ready, a value reaches nobody and nothing else happens. */
  lemma UnreadyChildrenGetNoValue<I, O>(ready: seq<bool>, from: I, v: O)
    requires forall i :: 0 <= i < |ready| ==> !ready[i]
    ensures Routed(ready, Value(from, v)) == []
  {
  }

  /** Errors and finishes reach every child once each, in order, whatever its readiness. */
  lemma BroadcastReachesEveryChild<I, O>(ready: seq<bool>, entry: Entry<I, O>)
    requires entry.Error? || entry.Finish?
    ensures |Routed(ready, entry)| == |ready|
    ensures forall i :: 0 <= i < |ready| ==>
      Routed(ready, entry)[i] == if entry.Error? then ErrorTo(i, entry.error) else FinishTo(i)
  {
  }

  /** A skip reaches the source exactly when every child is skipping. */
  lemma SkipIffAllSkipping<I, O>(skipping: seq<bool>, open: seq<bool>)
    ensures Commanded<I, O>(skipping, open, Skip) == [ToSource(Skip)] <==> forall i :: 0 <= i < |skipping| ==> skipping[i]
    ensures Commanded<I, O>(skipping, open, Skip) != [ToSource(Skip)] ==> Commanded<I, O>(skipping, open, Skip) == []
  {
    AllMeansEvery(skipping);
  }

  /** A close reaches the source exactly when no child is open. */
  lemma CloseIffNoneOpen<I, O>(skipping: seq<bool>, open: seq<bool>)
    ensures Commanded<I, O>(skipping, open, Command.Close) == [ToSource(Command.Close)] <==> forall i :: 0 <= i < |open| ==> !open[i]
    ensures Commanded<I, O>(skipping, open, Command.Close) != [ToSource(Command.Close)] ==> Commanded<I, O>(skipping, open, Command.Close) == []
  {
    NoneSetMeansNoOne(open);
  }

  /** A next always reaches the source, once. */
  lemma NextAlwaysReachesSource<I, O>(skipping: seq<bool>, open: seq<bool>)
    ensures multiset(Commanded<I, O>(skipping, open, Next))[ToSource(Next)] == 1
    ensures |Commanded<I, O>(skipping, open, Next)| == 1
  {
  }

  class LoadBalancer<I, O> {
    /** The attached child streams, in the order the splitter keeps them. */
    var streams: seq<Child>
    /** The calls made so far, in order. */
    var calls: seq<Call<I, O>>

    constructor ()
      ensures streams == [] && calls == []
    {
      streams := [];
      calls := [];
    }

    /** `onEntry`: a value to the first ready child only; a finish or an error to every child. */
    method OnEntry(entry: Entry<I, O>)
      modifies this`calls
      ensures calls == old(calls) + Routed(ReadyFlags(streams), entry)
    {
      match entry
      case Value(_, _) =>
        var i := 0;
        while i < |streams|
          invariant 0 <= i <= |streams|
          invariant forall j :: 0 <= j < i ==> !streams[j].ready
          invariant calls == old(calls)
        {
          if streams[i].ready {
            calls := calls + [ApplyTo(i, entry)];
            assert FirstReady(ReadyFlags(streams)) == Some(i) by {
              FirstReadyIsUnique(ReadyFlags(streams), i);
            }
            return;
          }
          i := i + 1;
        }
      case Finish(_, _) =>
        var i := 0;
        while i < |streams|
          invariant 0 <= i <= |streams|
          invariant calls == old(calls) + FinishAll(i)
        {
          calls := calls + [FinishTo(i)];
          i := i + 1;
        }
      case Error(_, t) =>
        var i := 0;
        while i < |streams|
          invariant 0 <= i <= |streams|
          invariant calls == old(calls) + ErrorAll(i, t)
        {
          calls := calls + [ErrorTo(i, t)];
          i := i + 1;
        }
      case Close(_) =>
    }

    /** `onCommand`: dispatch to next, skip or close. */
    method OnCommand(command: Command)
      modifies this`calls
      ensures calls == old(calls) + Commanded(SkippingFlags(streams), OpenFlags(streams), command)
    {
      match command
      case Next => NextCommand();
      case Skip => SkipCommand();
      case Close => CloseCommand();
    }

    /** `next`: ask the source for the next value. */
    method NextCommand()
      modifies this`calls
      ensures calls == old(calls) + [ToSource(Next)]
    {
      calls := calls + [ToSource(Next)];
    }

    /** `skip`: skip the source's batch, but only once every child skips. */
    method SkipCommand()
      modifies this`calls
      ensures calls == old(calls) + (if All(SkippingFlags(streams)) then [ToSource(Skip)] else [])
    {
      if !All(SkippingFlags(streams)) {
        return;
      }
      calls := calls + [ToSource(Skip)];
    }

    /** `close`: close the source, but only once no child is open. */
    method CloseCommand()
      modifies this`calls
      ensures calls == old(calls) + (if NoneSet(OpenFlags(streams)) then [ToSource(Command.Close)] else [])
    {
      if !NoneSet(OpenFlags(streams)) {
        return;
      }
      calls := calls + [ToSource(Command.Close)];
    }
  }

  lemma FirstReadyIsUnique(ready: seq<bool>, i: nat)
    requires i < |ready| && ready[i] && forall j :: 0 <= j < i ==> !ready[j]
    ensures FirstReady(ready) == Some(i)
  {
  }

  /**
   * Two children, only the second ready: a value goes to the second, a
   * finish to both, and a skip reaches the source only when both skip.
   */
  method RoutesToSecondReadyChild<I, O>(from: I, v: O, firstSkips: bool)
    returns (onValue: seq<Call<I, O>>, onFinish: seq<Call<I, O>>, onSkip: seq<Call<I, O>>)
    ensures onValue == [ApplyTo(1, Value(from, v))]
    ensures onFinish == [FinishTo(0), FinishTo(1)]
    ensures onSkip == if firstSkips then [ToSource(Skip)] else []
  {
    var balancer := new LoadBalancer<I, O>();
    var busy := new Child(false, firstSkips, true);
    var idle := new Child(true, true, true);
    balancer.streams := [busy, idle];
    assert ReadyFlags(balancer.streams) == [false, true];
    assert FirstReady([false, true]) == Some(1);
    assert SkippingFlags(balancer.streams) == [firstSkips, true];
    balancer.OnEntry(Value(from, v));
    onValue := balancer.calls;
    balancer.calls := [];
    assert FinishAll<I, O>(2) == [FinishTo(0), FinishTo(1)];
    balancer.OnEntry(Finish(from, 3));
    onFinish := balancer.calls;
    balancer.calls := [];
    assert All([firstSkips, true]) == firstSkips;
    balancer.OnCommand(Skip);
    onSkip := balancer.calls;
  }
}
