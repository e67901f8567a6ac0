/**
 Starting and stopping a pipeline's plugins: Init in declaration order, unwinding on the first
 failure, Shutdown in reverse order. The object keeps the trace of successful Inits and of
 Shutdown calls, which is what the outside sees.
 */
module Lifecycle {

  /** A plugin instance; `id` tells instances apart. */
  datatype Plugin = Plugin(id: nat, initializer: bool, shutdowner: bool)

  type Pipe = seq<Plugin>

  datatype Trace = Trace(inits: seq<Plugin>, shuts: seq<Plugin>)

  /** Plugins that hold something from a successful Init until their Shutdown. */
  predicate Tracked(p: Plugin) {
    p.initializer && p.shutdowner
  }

  /** The Shutdown calls made on a chain, last plugin first. */
  function ShutdownOrder(pipe: Pipe): seq<Plugin> {
    if pipe == [] then []
    else
      var p, before := pipe[|pipe| - 1], ShutdownOrder(pipe[..|pipe| - 1]);
      if p.shutdowner then [p] + before else before
  }

  function Initializers(pipe: Pipe): seq<Plugin> {
    if pipe == [] then []
    else
      var p, before := pipe[|pipe| - 1], Initializers(pipe[..|pipe| - 1]);
      if p.initializer then before + [p] else before
  }

  /** The first plugin whose Init fails, or the length of the chain. */
  function FirstFailure(pipe: Pipe, initOk: Plugin -> bool, from: nat): (i: nat)
    requires from <= |pipe|
    ensures from <= i <= |pipe|
    ensures i < |pipe| ==> pipe[i].initializer && !initOk(pipe[i])
    ensures forall k :: from <= k < i ==> !pipe[k].initializer || initOk(pipe[k])
    decreases |pipe| - from
  {
    if from == |pipe| || (pipe[from].initializer && !initOk(pipe[from])) then from else FirstFailure(pipe, initOk, from + 1)
  }

  /** The trace after Start, and whether it succeeded. */
  function Started(pipe: Pipe, initOk: Plugin -> bool, t: Trace): (Trace, bool) {
    var i := FirstFailure(pipe, initOk, 0);
    var t' := t.(inits := t.inits + Initializers(pipe[..i]));
    if i == |pipe| then (t', true) else (t'.(shuts := t'.shuts + ShutdownOrder(pipe[..i])), false)
  }

  function Stopped(pipe: Pipe, t: Trace): Trace {
    t.(shuts := t.shuts + ShutdownOrder(pipe))
  }

  // ----- Counting -----

  lemma CountAppend(s: seq<Plugin>, x: Plugin, p: Plugin)
    ensures multiset(s + [x])[p] == multiset(s)[p] + if x == p then 1 else 0
    ensures multiset([x] + s)[p] == multiset(s)[p] + if x == p then 1 else 0
  {
  }

  /** A chain's Shutdown calls and Inits concern each of its plugins as often as it occurs. */
  lemma {:induction false} CallsPerPlugin(pipe: Pipe, p: Plugin)
    ensures multiset(ShutdownOrder(pipe))[p] == if p.shutdowner then multiset(pipe)[p] else 0
    ensures multiset(Initializers(pipe))[p] == if p.initializer then multiset(pipe)[p] else 0
  {
    if pipe != [] {
      var before, x := pipe[..|pipe| - 1], pipe[|pipe| - 1];
      assert pipe == before + [x];
      CallsPerPlugin(before, p);
      CountAppend(before, x, p);
      CountAppend(ShutdownOrder(before), x, p);
      CountAppend(Initializers(before), x, p);
    }
  }

  lemma {:induction false} PrefixCount(pipe: Pipe, i: nat, p: Plugin)
    requires i <= |pipe|
    ensures multiset(pipe[..i])[p] <= multiset(pipe)[p]
  {
    assert pipe == pipe[..i] + pipe[i..];
  }

  function Inits(t: Trace, p: Plugin): nat {
    multiset(t.inits)[p]
  }

  function Shuts(t: Trace, p: Plugin): nat {
    multiset(t.shuts)[p]
  }

  /** Start leaves nothing half open: a successful start opens each tracked plugin of the chain, a
      failed one closes again exactly what it opened. */
  lemma StartIsAllOrNothing(pipe: Pipe, initOk: Plugin -> bool, t: Trace, p: Plugin)
    requires Tracked(p)
    ensures var (t', ok) := Started(pipe, initOk, t);
            Inits(t', p) - Shuts(t', p) == Inits(t, p) - Shuts(t, p) + if ok then multiset(pipe)[p] else 0
  {
    var i := FirstFailure(pipe, initOk, 0);
    CallsPerPlugin(pipe[..i], p);
    assert i == |pipe| ==> pipe[..i] == pipe;
  }

  /** No plugin is shut down by Start more often than it occurs in the chain. */
  lemma StartShutsAtMostOnce(pipe: Pipe, initOk: Plugin -> bool, t: Trace, p: Plugin)
    ensures var (t', ok) := Started(pipe, initOk, t);
            Shuts(t', p) <= Shuts(t, p) + if ok then 0 else multiset(pipe)[p]
  {
    var i := FirstFailure(pipe, initOk, 0);
    CallsPerPlugin(pipe[..i], p);
    PrefixCount(pipe, i, p);
  }

  lemma StopCloses(pipe: Pipe, t: Trace, p: Plugin)
    ensures Inits(Stopped(pipe, t), p) == Inits(t, p)
    ensures Shuts(Stopped(pipe, t), p) == Shuts(t, p) + if p.shutdowner then multiset(pipe)[p] else 0
  {
    CallsPerPlugin(pipe, p);
  }

  // ----- Order -----

  /** `calls` are the plugins of the chain at `places`. */
  ghost predicate At(pipe: Pipe, places: seq<nat>, calls: seq<Plugin>) {
    |places| == |calls| && forall k :: 0 <= k < |calls| ==> places[k] < |pipe| && calls[k] == pipe[places[k]]
  }

  ghost predicate Descending(places: seq<nat>) {
    forall a, b :: 0 <= a < b < |places| ==> places[a] > places[b]
  }

  ghost predicate Ascending(places: seq<nat>) {
    forall a, b :: 0 <= a < b < |places| ==> places[a] < places[b]
  }

  predicate NeedsShutdown(p: Plugin) {
    p.shutdowner
  }

  predicate NeedsInit(p: Plugin) {
    p.initializer
  }

  ghost predicate Covers(pipe: Pipe, places: seq<nat>, wanted: Plugin -> bool) {
    forall i :: 0 <= i < |pipe| ==> (i in places <==> wanted(pipe[i]))
  }

  /** The calls concern exactly the shutdowners of the chain, the last declared first. */
  ghost predicate ShutLastFirst(pipe: Pipe, calls: seq<Plugin>) {
    exists places :: At(pipe, places, calls) && Descending(places) && Covers(pipe, places, NeedsShutdown)
  }

  /** The calls concern exactly the initializers of the chain, in the order declared. */
  ghost predicate InitInOrder(pipe: Pipe, calls: seq<Plugin>) {
    exists places :: At(pipe, places, calls) && Ascending(places) && Covers(pipe, places, NeedsInit)
  }

  /** A longer chain, the added plugin not wanted. */
  lemma PlacesStay(pipe: Pipe, places: seq<nat>, calls: seq<Plugin>, wanted: Plugin -> bool)
    requires pipe != [] && !wanted(pipe[|pipe| - 1])
    requires At(pipe[..|pipe| - 1], places, calls) && Covers(pipe[..|pipe| - 1], places, wanted)
    ensures At(pipe, places, calls) && Covers(pipe, places, wanted)
  {
  }

  lemma PlacesPrepend(pipe: Pipe, places: seq<nat>, calls: seq<Plugin>, wanted: Plugin -> bool)
    requires pipe != [] && wanted(pipe[|pipe| - 1])
    requires At(pipe[..|pipe| - 1], places, calls) && Covers(pipe[..|pipe| - 1], places, wanted) && Descending(places)
    ensures var n := |pipe| - 1;
            At(pipe, [n] + places, [pipe[n]] + calls) && Covers(pipe, [n] + places, wanted) && Descending([n] + places)
  {
    assert forall k :: 0 <= k < |places| ==> places[k] < |pipe| - 1;
  }

  lemma PlacesAppend(pipe: Pipe, places: seq<nat>, calls: seq<Plugin>, wanted: Plugin -> bool)
    requires pipe != [] && wanted(pipe[|pipe| - 1])
    requires At(pipe[..|pipe| - 1], places, calls) && Covers(pipe[..|pipe| - 1], places, wanted) && Ascending(places)
    ensures var n := |pipe| - 1;
            At(pipe, places + [n], calls + [pipe[n]]) && Covers(pipe, places + [n], wanted) && Ascending(places + [n])
  {
    assert forall k :: 0 <= k < |places| ==> places[k] < |pipe| - 1;
  }

  lemma {:induction false} ShutdownPlaces(pipe: Pipe) returns (places: seq<nat>)
    ensures At(pipe, places, ShutdownOrder(pipe)) && Descending(places) && Covers(pipe, places, NeedsShutdown)
  {
    places := [];
    if pipe != [] {
      var n := |pipe| - 1;
      places := ShutdownPlaces(pipe[..n]);
      if pipe[n].shutdowner {
        PlacesPrepend(pipe, places, ShutdownOrder(pipe[..n]), NeedsShutdown);
        places := [n] + places;
      } else {
        PlacesStay(pipe, places, ShutdownOrder(pipe[..n]), NeedsShutdown);
      }
    }
  }

  lemma {:induction false} InitPlaces(pipe: Pipe) returns (places: seq<nat>)
    ensures At(pipe, places, Initializers(pipe)) && Ascending(places) && Covers(pipe, places, NeedsInit)
  {
    places := [];
    if pipe != [] {
      var n := |pipe| - 1;
      places := InitPlaces(pipe[..n]);
      if pipe[n].initializer {
        PlacesAppend(pipe, places, Initializers(pipe[..n]), NeedsInit);
        places := places + [n];
      } else {
        PlacesStay(pipe, places, Initializers(pipe[..n]), NeedsInit);
      }
    }
  }

  /** Stop makes exactly the Shutdown calls of the chain, the last declared first, and nothing else. */
  lemma StopShutsLastFirst(pipe: Pipe, t: Trace)
    ensures var t' := Stopped(pipe, t);
            t'.inits == t.inits && t.shuts <= t'.shuts && ShutLastFirst(pipe, t'.shuts[|t.shuts|..])
  {
    var places := ShutdownPlaces(pipe);
    assert Stopped(pipe, t).shuts[|t.shuts|..] == ShutdownOrder(pipe);
  }

  /** Start succeeds if and only if every Init does. Either way it makes the Inits before the first failure, in the
      order declared; on failure it then shuts down what lies before the failed plugin, the last declared first. */
  lemma StartInitsThenUnwinds(pipe: Pipe, initOk: Plugin -> bool, t: Trace)
    ensures var (t', ok) := Started(pipe, initOk, t);
            var i := FirstFailure(pipe, initOk, 0);
            && (ok <==> forall k :: 0 <= k < |pipe| && pipe[k].initializer ==> initOk(pipe[k]))
            && t.inits <= t'.inits && InitInOrder(pipe[..i], t'.inits[|t.inits|..])
            && (ok ==> t'.shuts == t.shuts)
            && (!ok ==> t.shuts <= t'.shuts && ShutLastFirst(pipe[..i], t'.shuts[|t.shuts|..]))
  {
    var i := FirstFailure(pipe, initOk, 0);
    var ups := InitPlaces(pipe[..i]);
    var downs := ShutdownPlaces(pipe[..i]);
    var t' := Started(pipe, initOk, t).0;
    assert t'.inits[|t.inits|..] == Initializers(pipe[..i]);
    if i < |pipe| {
      assert t'.shuts[|t.shuts|..] == ShutdownOrder(pipe[..i]);
    }
  }

  // ----- The runtime -----

  class Runtime {
    var inits: seq<Plugin>
    var shuts: seq<Plugin>

    ghost function Value(): Trace
      reads this
    {
      Trace(inits, shuts)
    }

    constructor ()
      ensures Value() == Trace([], [])
    {
      inits, shuts := [], [];
    }

    method Start(pipe: Pipe, initOk: Plugin -> bool) returns (ok: bool)
      modifies this
      ensures (Value(), ok) == Started(pipe, initOk, old(Value()))
    {
      for i := 0 to |pipe|
        invariant FirstFailure(pipe, initOk, i) == FirstFailure(pipe, initOk, 0)
        invariant inits == old(inits) + Initializers(pipe[..i]) && shuts == old(shuts)
      {
        assert pipe[..i + 1][..i] == pipe[..i];
        if !pipe[i].initializer {
          continue;
        }
        if !initOk(pipe[i]) {
          UnwindStart(pipe, i);
          return false;
        }
        inits := inits + [pipe[i]];
      }
      assert pipe[..|pipe|] == pipe;
      ok := true;
    }

    method UnwindStart(pipe: Pipe, failedIdx: nat)
      requires failedIdx <= |pipe|
      modifies this`shuts
      ensures shuts == old(shuts) + ShutdownOrder(pipe[..failedIdx])
    {
      for i := failedIdx downto 0
        invariant shuts + ShutdownOrder(pipe[..i]) == old(shuts) + ShutdownOrder(pipe[..failedIdx])
      {
        assert pipe[..i + 1][..i] == pipe[..i];
        if !pipe[i].shutdowner {
          continue;
        }
        shuts := shuts + [pipe[i]];
      }
    }

    method Stop(pipe: Pipe)
      modifies this`shuts
      ensures Value() == Stopped(pipe, old(Value()))
    {
      assert pipe[..|pipe|] == pipe;
      for i := |pipe| downto 0
        invariant shuts + ShutdownOrder(pipe[..i]) == old(shuts) + ShutdownOrder(pipe)
      {
        assert pipe[..i + 1][..i] == pipe[..i];
        if !pipe[i].shutdowner {
          continue;
        }
        shuts := shuts + [pipe[i]];
      }
    }
  }
}
