/**
 The finish phase of a request: exactly the plugins whose OnRequest ran are finished, last
 first, as often as it ran, and finishing changes nothing else.
 */
module PipelineFinish {
  import opened Common
  import opened PipelineContext
  import opened Pipelines
  import opened PipelineLaws

  lemma PerformedLedger(c: Ctx, cmd: Command)
    ensures Performed(c, cmd).ledger == c.ledger
  {
  }

  lemma {:induction false} StepsLedger<R>(prog: Program<R>, n: nat, seen: seq<Message>, c: Ctx)
    ensures Steps(prog, n, seen, c).0.ledger == c.ledger
    decreases n
  {
    if n > 0 {
      var t := seen + [c.message];
      PerformedLedger(c, prog.act(t));
      StepsLedger(prog, n - 1, t, Performed(c, prog.act(t)));
    }
  }

  /** A ledger with `more` plugins dispatched. */
  function Dispatching(l: Ledger, more: seq<nat>): Ledger {
    l.(dispatched := l.dispatched + more)
  }

  lemma VisitedLedger(s: Slot, kind: Kind, hook: Program<Action>, c: Ctx)
    ensures Visited(s, kind, hook, c).0.ledger == Dispatching(c.ledger, if kind.OnRequest? then [s.index] else [])
  {
    var c1 := Entered(s, kind, c);
    StepsLedger(hook, hook.len(c1.message), [], c1);
    assert c.ledger.dispatched + [] == c.ledger.dispatched;
  }

  lemma DispatchingTwice(l: Ledger, a: seq<nat>, b: seq<nat>)
    ensures Dispatching(Dispatching(l, a), b) == Dispatching(l, a + b)
    ensures Dispatching(l, []) == l
  {
    assert l.dispatched + a + b == l.dispatched + (a + b);
    assert l.dispatched + [] == l.dispatched;
  }

  lemma IndicesAfter(call: Call, calls: seq<Call>)
    ensures Indices([call] + calls) == [call.slot.index] + Indices(calls)
  {
    assert ([call] + calls)[1..] == calls;
  }

  /** The dispatch list of a request grows by exactly the OnRequest hooks invoked. */
  lemma {:induction false} WalkLedger(slots: seq<Slot>, kind: Kind, k: nat, live: nat -> bool, c: Ctx)
    ensures var w := Walk(slots, kind, k, live, c);
            w.ctx.ledger == Dispatching(c.ledger, if kind.OnRequest? then Indices(w.calls) else [])
    decreases |slots|
  {
    DispatchingTwice(c.ledger, [], []);
    if slots != [] {
      var s := slots[0];
      var hook := Hook(s.plugin, kind);
      if Skips(s, kind) {
        WalkLedger(slots[1..], kind, k, live, c);
      } else if live(k) {
        if hook.None? {
          WalkLedger(slots[1..], kind, k + 1, live, c);
        } else {
          VisitedLedger(s, kind, hook.value, c);
          var (c', stop) := Visited(s, kind, hook.value, c);
          if stop.None? {
            WalkLedger(slots[1..], kind, k + 1, live, c');
            var calls := Walk(slots[1..], kind, k + 1, live, c').calls;
            IndicesAfter(Call(s, c.message), calls);
            DispatchingTwice(c.ledger, if kind.OnRequest? then [s.index] else [], if kind.OnRequest? then Indices(calls) else []);
          }
        }
      }
    }
  }

  lemma {:induction false} ServedLedger(p: Pipe, ops: seq<Op>, c: Ctx)
    ensures var r := Serve(p, ops, c);
            r.ctx.ledger == Dispatching(c.ledger, r.requested)
    decreases |ops|
  {
    if ops != [] {
      match ops[0]
      case Upstream(st, b) => ServedLedger(p, ops[1..], Arrived(c, st, b));
      case RunPhase(kind, live) =>
        WalkLedger(Slots(p, kind), kind, 0, live, c);
        ServedLedger(p, ops[1..], Phased(p, kind, live, c).ctx);
    }
  }

  lemma {:induction false} CalledInRange(p: Pipe, slots: seq<Slot>, kind: Kind, k: nat, live: nat -> bool, c: Ctx)
    requires forall j :: 0 <= j < |slots| ==> slots[j].index < |p.plugins|
    ensures InRange(p, Indices(Walk(slots, kind, k, live, c).calls))
    decreases |slots|
  {
    if slots != [] && !Skips(slots[0], kind) && live(k) {
      var hook := Hook(slots[0].plugin, kind);
      if hook.None? {
        CalledInRange(p, slots[1..], kind, k + 1, live, c);
      } else {
        var (c', stop) := Visited(slots[0], kind, hook.value, c);
        if stop.None? {
          CalledInRange(p, slots[1..], kind, k + 1, live, c');
          IndicesAfter(Call(slots[0], c.message), Walk(slots[1..], kind, k + 1, live, c').calls);
        }
      }
    } else if slots != [] && Skips(slots[0], kind) {
      CalledInRange(p, slots[1..], kind, k, live, c);
    }
  }

  lemma {:induction false} RequestedInRange(p: Pipe, ops: seq<Op>, c: Ctx)
    ensures InRange(p, Serve(p, ops, c).requested)
    decreases |ops|
  {
    if ops != [] {
      match ops[0]
      case Upstream(st, b) => RequestedInRange(p, ops[1..], Arrived(c, st, b));
      case RunPhase(kind, live) =>
        if kind.OnRequest? {
          CalledInRange(p, Slots(p, kind), kind, 0, live, c);
        }
        RequestedInRange(p, ops[1..], Phased(p, kind, live, c).ctx);
    }
  }

  function Finishers(p: Pipe, indices: seq<nat>): seq<nat>
    requires InRange(p, indices)
  {
    if indices == [] then []
    else (if p.plugins[indices[0]].onFinish.Some? then [indices[0]] else []) + Finishers(p, indices[1..])
  }

  function Reversed<T>(s: seq<T>): seq<T> {
    if s == [] then [] else Reversed(s[1..]) + [s[0]]
  }

  /** Every one of `indices` sees the outcome. */
  function AllSaw(indices: seq<nat>, o: Outcome): seq<FinishCall> {
    if indices == [] then [] else [FinishCall(indices[0], Some(o))] + AllSaw(indices[1..], o)
  }

  lemma {:induction false} FinishersOfAppend(p: Pipe, indices: seq<nat>, i: nat)
    requires InRange(p, indices) && i < |p.plugins|
    ensures InRange(p, indices + [i])
    ensures Finishers(p, indices + [i]) == Finishers(p, indices) + if p.plugins[i].onFinish.Some? then [i] else []
  {
    if indices != [] {
      FinishersOfAppend(p, indices[1..], i);
      assert (indices + [i])[1..] == indices[1..] + [i];
    }
  }

  lemma {:induction false} ReversedAppend<T>(s: seq<T>, x: T)
    ensures Reversed(s + [x]) == [x] + Reversed(s)
  {
    if s != [] {
      ReversedAppend(s[1..], x);
      assert (s + [x])[1..] == s[1..] + [x];
    }
  }

  lemma {:induction false} FinishChainIsLifo(p: Pipe, todo: seq<nat>, c: Ctx, o: Outcome)
    requires InRange(p, todo) && c.ledger.outcome == Some(o) && !c.ledger.inFinish
    ensures FinishChain(p, todo, c) == (c, AllSaw(Reversed(Finishers(p, todo)), o))
    decreases |todo|
  {
    if todo != [] {
      var i, rest := todo[|todo| - 1], todo[..|todo| - 1];
      assert todo == rest + [i];
      FinishersOfAppend(p, rest, i);
      if p.plugins[i].onFinish.Some? {
        FinishKeepsContext(p.plugins[i].onFinish.value, c);
        ReversedAppend(Finishers(p, rest), i);
      } else {
        assert Finishers(p, todo) == Finishers(p, rest);
      }
      FinishChainIsLifo(p, rest, c, o);
    }
  }

  /** After any phases of a request, accepted, rejected or cancelled: the finishers among the plugins
      whose OnRequest was invoked are finished, last first, whichever of them panic; each sees the
      outcome, which is gone afterwards; nothing they record or rewrite has any effect; and finishing
      again does nothing. */
  lemma FinishIsExactLifoOnce(p: Pipe, ops: seq<Op>, c: Ctx, o: Outcome, again: Outcome)
    requires c.ledger == Ledger([], None, false, false)
    ensures var r := Serve(p, ops, c);
            && r.ctx.ledger.dispatched == r.requested && InRange(p, r.requested)
            && Finished(p, r.ctx, o) == (Finishing(r.ctx, None), AllSaw(Reversed(Finishers(p, r.requested)), o))
            && Finished(p, Finishing(r.ctx, None), again) == (Finishing(r.ctx, None), [])
  {
    ServedLedger(p, ops, c);
    RequestedInRange(p, ops, c);
    var r := Serve(p, ops, c);
    FinishChainIsLifo(p, r.requested, Finishing(r.ctx, Some(o)), o);
  }

  // ----- How often -----

  function CallIndices(calls: seq<FinishCall>): seq<nat> {
    if calls == [] then [] else [calls[0].index] + CallIndices(calls[1..])
  }

  lemma {:induction false} AllSawIndices(indices: seq<nat>, o: Outcome)
    ensures CallIndices(AllSaw(indices, o)) == indices
  {
    if indices != [] {
      AllSawIndices(indices[1..], o);
      assert AllSaw(indices, o)[1..] == AllSaw(indices[1..], o);
    }
  }

  lemma {:induction false} ReversedCounts<T>(s: seq<T>)
    ensures multiset(Reversed(s)) == multiset(s)
  {
    if s != [] {
      ReversedCounts(s[1..]);
      assert s == [s[0]] + s[1..];
    }
  }

  lemma {:induction false} FinishersCount(p: Pipe, indices: seq<nat>, i: nat)
    requires InRange(p, indices) && i < |p.plugins|
    ensures multiset(Finishers(p, indices))[i] == if p.plugins[i].onFinish.Some? then multiset(indices)[i] else 0
  {
    if indices != [] {
      FinishersCount(p, indices[1..], i);
      assert indices == [indices[0]] + indices[1..];
    }
  }

  /** Over any number of Runs, a finisher is finished exactly as often as its OnRequest was invoked. */
  lemma FinishedAsOftenAsRequested(p: Pipe, ops: seq<Op>, c: Ctx, o: Outcome, i: nat)
    requires c.ledger == Ledger([], None, false, false) && i < |p.plugins|
    ensures var r := Serve(p, ops, c);
            && InRange(p, r.ctx.ledger.dispatched)
            && multiset(CallIndices(Finished(p, r.ctx, o).1))[i] ==
               if p.plugins[i].onFinish.Some? then multiset(r.requested)[i] else 0
  {
    FinishIsExactLifoOnce(p, ops, c, o, o);
    var r := Serve(p, ops, c);
    AllSawIndices(Reversed(Finishers(p, r.requested)), o);
    ReversedCounts(Finishers(p, r.requested));
    FinishersCount(p, r.requested, i);
  }

  predicate Increasing(s: seq<nat>) {
    forall a, b :: 0 <= a < b < |s| ==> s[a] < s[b]
  }

  predicate From(lo: nat, s: seq<nat>) {
    forall a :: 0 <= a < |s| ==> lo <= s[a]
  }

  lemma IncreasingCons(lo: nat, s: seq<nat>)
    requires Increasing(s) && From(lo + 1, s)
    ensures Increasing([lo] + s) && From(lo, [lo] + s) && From(lo, s)
  {
  }

  /** One phase over consecutively numbered plugins invokes each at most once, in order. */
  lemma {:induction false} CalledIncreasing(slots: seq<Slot>, lo: nat, kind: Kind, k: nat, live: nat -> bool, c: Ctx)
    requires forall a :: 0 <= a < |slots| ==> slots[a].index == lo + a
    ensures var called := Indices(Walk(slots, kind, k, live, c).calls); Increasing(called) && From(lo, called)
    decreases |slots|
  {
    if slots != [] {
      var s, rest, hook := slots[0], slots[1..], Hook(slots[0].plugin, kind);
      if Skips(s, kind) {
        CalledIncreasing(rest, lo + 1, kind, k, live, c);
        IncreasingCons(lo, Indices(Walk(rest, kind, k, live, c).calls));
      } else if live(k) {
        var c' := if hook.None? then c else Visited(s, kind, hook.value, c).0;
        CalledIncreasing(rest, lo + 1, kind, k + 1, live, c');
        var calls := Walk(rest, kind, k + 1, live, c').calls;
        IncreasingCons(lo, Indices(calls));
        IndicesAfter(Call(s, c.message), calls);
        IndicesAfter(Call(s, c.message), []);
        IncreasingCons(lo, []);
      }
    }
  }

  function Runs(ops: seq<Op>): nat {
    if ops == [] then 0 else (if ops[0].RunPhase? && ops[0].kind.OnRequest? then 1 else 0) + Runs(ops[1..])
  }

  lemma {:induction false} NoRunNoRequest(p: Pipe, ops: seq<Op>, c: Ctx)
    requires Runs(ops) == 0
    ensures Serve(p, ops, c).requested == []
    decreases |ops|
  {
    if ops != [] {
      match ops[0]
      case Upstream(st, b) => NoRunNoRequest(p, ops[1..], Arrived(c, st, b));
      case RunPhase(kind, live) => NoRunNoRequest(p, ops[1..], Phased(p, kind, live, c).ctx);
    }
  }

  lemma {:induction false} OneRunRequestsInOrder(p: Pipe, ops: seq<Op>, c: Ctx)
    requires Runs(ops) <= 1
    ensures Increasing(Serve(p, ops, c).requested)
    decreases |ops|
  {
    if ops != [] {
      match ops[0]
      case Upstream(st, b) => OneRunRequestsInOrder(p, ops[1..], Arrived(c, st, b));
      case RunPhase(kind, live) =>
        var d := Phased(p, kind, live, c).ctx;
        if kind.OnRequest? {
          CalledIncreasing(Slots(p, kind), 0, kind, 0, live, c);
          NoRunNoRequest(p, ops[1..], d);
        } else {
          OneRunRequestsInOrder(p, ops[1..], d);
        }
    }
  }

  lemma {:induction false} IncreasingCounts(s: seq<nat>, i: nat)
    requires Increasing(s)
    ensures multiset(s)[i] == if i in s then 1 else 0
  {
    if s != [] {
      var rest := s[1..];
      assert s == [s[0]] + rest && forall a :: 0 <= a < |rest| ==> rest[a] == s[a + 1];
      IncreasingCounts(rest, i);
    }
  }

  /** With at most one Run, accepted, rejected or cancelled midway: a finisher is finished exactly once if
      its OnRequest was invoked, and otherwise not at all. */
  lemma EachIsFinishedOnce(p: Pipe, ops: seq<Op>, c: Ctx, o: Outcome, i: nat)
    requires c.ledger == Ledger([], None, false, false) && i < |p.plugins| && Runs(ops) <= 1
    ensures var r := Serve(p, ops, c);
            && InRange(p, r.ctx.ledger.dispatched)
            && multiset(CallIndices(Finished(p, r.ctx, o).1))[i] ==
               if p.plugins[i].onFinish.Some? && i in r.requested then 1 else 0
  {
    FinishedAsOftenAsRequested(p, ops, c, o, i);
    OneRunRequestsInOrder(p, ops, c);
    IncreasingCounts(Serve(p, ops, c).requested, i);
  }
}
